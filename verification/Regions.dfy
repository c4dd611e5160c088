/** The algebra of net edits between two whole files.

    A composition never holds a whole file: it holds regions, each replacing the
    lines `before` at `beforeStart` of an older file by the lines `after` at
    `afterStart` of a newer one.  `Run` says what such a list means in terms of the
    two files, and `Patched` says it a second time as a computation.  Captured hunks
    and displayed hunks are read through the same two definitions. */
module Regions {

  type Line = string

  datatype Region = Region(
    beforeStart: int, afterStart: int,
    before: seq<Line>, after: seq<Line>,
    hidden: bool, highlighted: bool)
  {
    function BeforeEnd(): int { beforeStart + |before| }
    function AfterEnd(): int { afterStart + |after| }

    // The same region after the newer file grew by `shift` lines ahead of it.
    function Shifted(shift: int): Region { this.(afterStart := afterStart + shift) }
  }

  /** `rs` turns base[i..i2] into cur[j..j2]: the regions come in order in both files,
      each side reads as recorded, and everything between them is the same text. */
  ghost predicate Run(rs: seq<Region>, base: seq<Line>, cur: seq<Line>, i: int, j: int, i2: int, j2: int)
  {
    && 0 <= i <= i2 <= |base|
    && 0 <= j <= j2 <= |cur|
    && if rs == [] then
         base[i..i2] == cur[j..j2]
       else
         var r := rs[0];
         && i <= r.beforeStart && r.BeforeEnd() <= i2
         && j <= r.afterStart && r.AfterEnd() <= j2
         && base[i..r.beforeStart] == cur[j..r.afterStart]
         && base[r.beforeStart..r.BeforeEnd()] == r.before
         && cur[r.afterStart..r.AfterEnd()] == r.after
         && Run(rs[1..], base, cur, r.BeforeEnd(), r.AfterEnd(), i2, j2)
  }

  // `rs` turns the whole of `base` into the whole of `cur`.
  ghost predicate Carries(rs: seq<Region>, base: seq<Line>, cur: seq<Line>)
  {
    Run(rs, base, cur, 0, 0, |base|, |cur|)
  }

  function Shift(rs: seq<Region>, shift: int): (r: seq<Region>)
    ensures |r| == |rs|
    ensures forall k :: 0 <= k < |rs| ==> r[k] == rs[k].Shifted(shift)
  {
    if rs == [] then [] else [rs[0].Shifted(shift)] + Shift(rs[1..], shift)
  }

  lemma RegionEnds(r: Region)
    ensures r.BeforeEnd() == r.beforeStart + |r.before| && r.AfterEnd() == r.afterStart + |r.after|
  {
  }

  // The lines from i to j, where there are such lines.
  function Slice(s: seq<Line>, i: int, j: int): seq<Line> { if 0 <= i <= j <= |s| then s[i..j] else [] }

  function Spliced(s: seq<Line>, lo: int, hi: int, mid: seq<Line>): seq<Line>
    requires 0 <= lo <= hi <= |s|
  {
    s[..lo] + mid + s[hi..]
  }

  /** Replaces each region's old side by its new side in `base`, last region first, so
      every position is still a position of `base`. */
  function Patched(rs: seq<Region>, base: seq<Line>): seq<Line>
    requires Fits(rs, base)
    decreases |rs|
  {
    if rs == [] then base
    else
      var r := rs[|rs| - 1];
      FitsPrefix(rs, base);
      Patched(rs[..|rs| - 1], Spliced(base, r.beforeStart, r.BeforeEnd(), r.after))
  }

  // The old sides are where they say, in order and without overlap.
  predicate Fits(rs: seq<Region>, base: seq<Line>)
  {
    && (forall k :: 0 <= k < |rs| ==> 0 <= rs[k].beforeStart && rs[k].BeforeEnd() <= |base| && base[rs[k].beforeStart..rs[k].BeforeEnd()] == rs[k].before)
    && (forall k, l :: 0 <= k < l < |rs| ==> rs[k].BeforeEnd() <= rs[l].beforeStart)
  }

  lemma FitsPrefix(rs: seq<Region>, base: seq<Line>)
    requires rs != [] && Fits(rs, base)
    ensures Fits(rs[..|rs| - 1], Spliced(base, rs[|rs| - 1].beforeStart, rs[|rs| - 1].BeforeEnd(), rs[|rs| - 1].after))
  {
    var n := |rs| - 1;
    var next := Spliced(base, rs[n].beforeStart, rs[n].BeforeEnd(), rs[n].after);
    forall k | 0 <= k < n
      ensures rs[k].BeforeEnd() <= |next| && next[rs[k].beforeStart..rs[k].BeforeEnd()] == base[rs[k].beforeStart..rs[k].BeforeEnd()]
    {
    }
  }

  // ----- Equal stretches of two texts

  lemma SliceSlice<T>(a: seq<T>, i: int, n: int, lo: int, hi: int)
    requires 0 <= i <= i + n <= |a| && 0 <= lo <= hi <= n
    ensures a[i..i + n][lo..hi] == a[i + lo..i + hi]
  {
    var x, y := a[i..i + n], a[i + lo..i + hi];
    assert forall k :: 0 <= k < n ==> x[k] == a[i + k];
    assert forall k :: 0 <= k < hi - lo ==> y[k] == a[i + lo + k];
    assert forall k :: 0 <= k < hi - lo ==> x[lo..hi][k] == x[lo + k];
  }

  lemma SubStretch<T>(a: seq<T>, b: seq<T>, i: int, j: int, n: int, lo: int, hi: int)
    requires 0 <= i && 0 <= j && 0 <= n && i + n <= |a| && j + n <= |b|
    requires a[i..i + n] == b[j..j + n]
    requires 0 <= lo <= hi <= n
    ensures a[i + lo..i + hi] == b[j + lo..j + hi]
  {
    SliceSlice(a, i, n, lo, hi);
    SliceSlice(b, j, n, lo, hi);
  }

  lemma ThreeStretches<T>(a: seq<T>, b: seq<T>, i: int, j: int, n: int, p: int, q: int)
    requires 0 <= i && 0 <= j && 0 <= n && i + n <= |a| && j + n <= |b|
    requires a[i..i + n] == b[j..j + n]
    requires 0 <= p <= q <= n
    ensures a[i..i + p] == b[j..j + p] && a[i + p..i + q] == b[j + p..j + q] && a[i + q..i + n] == b[j + q..j + n]
  {
    SubStretch(a, b, i, j, n, 0, p);
    SubStretch(a, b, i, j, n, p, q);
    SubStretch(a, b, i, j, n, q, n);
  }

  lemma JoinStretch<T>(a: seq<T>, b: seq<T>, i: int, j: int, n: int, m: int)
    requires 0 <= i && 0 <= j && 0 <= n && 0 <= m && i + n + m <= |a| && j + n + m <= |b|
    requires a[i..i + n] == b[j..j + n] && a[i + n..i + n + m] == b[j + n..j + n + m]
    ensures a[i..i + n + m] == b[j..j + n + m]
  {
    assert a[i..i + n + m] == a[i..i + n] + a[i + n..i + n + m];
    assert b[j..j + n + m] == b[j..j + n] + b[j + n..j + n + m];
  }

  // A spliced text agrees with `cur` from the splice on exactly when `cur` reads the new middle, then the old rest.
  lemma SplicedTail<T>(base: seq<T>, lo: int, hi: int, mid: seq<T>, cur: seq<T>, at: int)
    requires 0 <= lo <= hi <= |base| && 0 <= at
    requires at + |mid| + |base| - hi == |cur|
    ensures (base[..lo] + mid + base[hi..])[lo..] == cur[at..] <==> cur[at..at + |mid|] == mid && cur[at + |mid|..] == base[hi..]
    ensures (base[..lo] + mid + base[hi..])[..lo] == base[..lo]
  {
    var rest := cur[at..];
    assert (base[..lo] + mid + base[hi..])[lo..] == mid + base[hi..];
    assert rest[..|mid|] == cur[at..at + |mid|] && rest[|mid|..] == cur[at + |mid|..];
    assert rest == rest[..|mid|] + rest[|mid|..];
  }

  // ----- Growing, cutting and joining runs

  lemma {:induction false} RunExtend(rs: seq<Region>, base: seq<Line>, cur: seq<Line>, i: int, j: int, i2: int, j2: int, n: int)
    requires Run(rs, base, cur, i, j, i2, j2)
    requires 0 <= n && i2 + n <= |base| && j2 + n <= |cur|
    requires base[i2..i2 + n] == cur[j2..j2 + n]
    ensures Run(rs, base, cur, i, j, i2 + n, j2 + n)
  {
    if rs == [] {
      assert |base[i..i2]| == |cur[j..j2]|;
      JoinStretch(base, cur, i, j, i2 - i, n);
    } else {
      RunExtend(rs[1..], base, cur, rs[0].BeforeEnd(), rs[0].AfterEnd(), i2, j2, n);
    }
  }

  lemma {:induction false} RunConcat(ps: seq<Region>, qs: seq<Region>, base: seq<Line>, cur: seq<Line>,
                                     i: int, j: int, m: int, n: int, i2: int, j2: int)
    requires Run(ps, base, cur, i, j, m, n)
    requires Run(qs, base, cur, m, n, i2, j2)
    ensures Run(ps + qs, base, cur, i, j, i2, j2)
  {
    if ps == [] {
      assert ps + qs == qs;
      RunWiden(qs, base, cur, i, j, m, n, i2, j2);
    } else {
      assert (ps + qs)[1..] == ps[1..] + qs;
      RunConcat(ps[1..], qs, base, cur, ps[0].BeforeEnd(), ps[0].AfterEnd(), m, n, i2, j2);
    }
  }

  // Equal text ahead of a run belongs to its first gap.
  lemma RunWiden(qs: seq<Region>, base: seq<Line>, cur: seq<Line>, i: int, j: int, m: int, n: int, i2: int, j2: int)
    requires 0 <= i <= m && 0 <= j <= n
    requires Run(qs, base, cur, m, n, i2, j2)
    requires base[i..m] == cur[j..n]
    ensures Run(qs, base, cur, i, j, i2, j2)
  {
    if qs == [] {
      assert base[i..i2] == base[i..m] + base[m..i2];
      assert cur[j..j2] == cur[j..n] + cur[n..j2];
    } else {
      var r := qs[0];
      assert base[i..r.beforeStart] == base[i..m] + base[m..r.beforeStart];
      assert cur[j..r.afterStart] == cur[j..n] + cur[n..r.afterStart];
    }
  }

  lemma RunOne(r: Region, base: seq<Line>, cur: seq<Line>)
    requires 0 <= r.beforeStart && r.BeforeEnd() <= |base| && base[r.beforeStart..r.BeforeEnd()] == r.before
    requires 0 <= r.afterStart && r.AfterEnd() <= |cur| && cur[r.afterStart..r.AfterEnd()] == r.after
    ensures Run([r], base, cur, r.beforeStart, r.afterStart, r.BeforeEnd(), r.AfterEnd())
  {
    assert Run([r][1..], base, cur, r.BeforeEnd(), r.AfterEnd(), r.BeforeEnd(), r.AfterEnd());
  }

  // A region starting where a run ends continues it.
  lemma RunSnoc(rs: seq<Region>, r: Region, base: seq<Line>, cur: seq<Line>, i: int, j: int)
    requires Run(rs, base, cur, i, j, r.beforeStart, r.afterStart)
    requires r.BeforeEnd() <= |base| && base[r.beforeStart..r.BeforeEnd()] == r.before
    requires r.AfterEnd() <= |cur| && cur[r.afterStart..r.AfterEnd()] == r.after
    ensures Run(rs + [r], base, cur, i, j, r.BeforeEnd(), r.AfterEnd())
  {
    RunOne(r, base, cur);
    RunConcat(rs, [r], base, cur, i, j, r.beforeStart, r.afterStart, r.BeforeEnd(), r.AfterEnd());
  }

  // A region ending where a run ends may grow.
  lemma RunGrowLast(rs: seq<Region>, base: seq<Line>, cur: seq<Line>, i: int, j: int, i2: int, j2: int, before: seq<Line>, after: seq<Line>)
    requires rs != [] && Run(rs, base, cur, i, j, i2, j2)
    requires rs[|rs| - 1].BeforeEnd() == i2 && rs[|rs| - 1].AfterEnd() == j2
    requires i2 + |before| <= |base| && base[i2..i2 + |before|] == before
    requires j2 + |after| <= |cur| && cur[j2..j2 + |after|] == after
    ensures Run(rs[..|rs| - 1] + [Grown(rs[|rs| - 1], before, after)], base, cur, i, j, i2 + |before|, j2 + |after|)
  {
    hide *;
    var n := |rs| - 1;
    var r, r' := rs[n], Grown(rs[n], before, after);
    RunCut(rs, base, cur, i, j, i2, j2, n);
    RunEnd(rs, base, cur, i, j, i2, j2);
    GrownSides(r, base, cur, i2, j2, before, after);
    RunSnoc(rs[..n], r', base, cur, i, j);
  }

  lemma RunEnd(rs: seq<Region>, base: seq<Line>, cur: seq<Line>, i: int, j: int, i2: int, j2: int)
    requires rs != [] && Run(rs, base, cur, i, j, i2, j2)
    ensures var r := rs[|rs| - 1];
            && 0 <= r.beforeStart && r.BeforeEnd() <= |base| && base[r.beforeStart..r.BeforeEnd()] == r.before
            && 0 <= r.afterStart && r.AfterEnd() <= |cur| && cur[r.afterStart..r.AfterEnd()] == r.after
  {
    RunBounds(rs, base, cur, i, j, i2, j2);
    hide Run;
  }

  lemma GrownSides(r: Region, base: seq<Line>, cur: seq<Line>, i2: int, j2: int, before: seq<Line>, after: seq<Line>)
    requires 0 <= r.beforeStart && r.BeforeEnd() <= |base| && base[r.beforeStart..r.BeforeEnd()] == r.before
    requires 0 <= r.afterStart && r.AfterEnd() <= |cur| && cur[r.afterStart..r.AfterEnd()] == r.after
    requires r.BeforeEnd() == i2 && i2 + |before| <= |base| && base[i2..i2 + |before|] == before
    requires r.AfterEnd() == j2 && j2 + |after| <= |cur| && cur[j2..j2 + |after|] == after
    ensures var g := Grown(r, before, after);
            && g.beforeStart == r.beforeStart && g.afterStart == r.afterStart
            && g.BeforeEnd() == i2 + |before| <= |base| && base[g.beforeStart..g.BeforeEnd()] == g.before
            && g.AfterEnd() == j2 + |after| <= |cur| && cur[g.afterStart..g.AfterEnd()] == g.after
  {
    assert base[r.beforeStart..i2 + |before|] == base[r.beforeStart..i2] + base[i2..i2 + |before|];
    assert cur[r.afterStart..j2 + |after|] == cur[r.afterStart..j2] + cur[j2..j2 + |after|];
  }

  function Grown(r: Region, before: seq<Line>, after: seq<Line>): Region
  {
    r.(before := r.before + before, after := r.after + after)
  }

  lemma RunSnocEnd(rs: seq<Region>, r: Region, base: seq<Line>, cur: seq<Line>, i: int, j: int)
    requires Run(rs, base, cur, i, j, r.beforeStart, r.afterStart)
    requires r.BeforeEnd() <= |base| && base[r.beforeStart..r.BeforeEnd()] == r.before
    requires r.AfterEnd() <= |cur| && cur[r.afterStart..r.AfterEnd()] == r.after
    requires base[r.BeforeEnd()..] == cur[r.AfterEnd()..]
    ensures Run(rs + [r], base, cur, i, j, |base|, |cur|)
  {
    RunSnoc(rs, r, base, cur, i, j);
    assert |base[r.BeforeEnd()..]| == |cur[r.AfterEnd()..]|;
    RunExtend(rs + [r], base, cur, i, j, r.BeforeEnd(), r.AfterEnd(), |base| - r.BeforeEnd());
  }

  // Cut behind the last region.
  lemma RunLast(rs: seq<Region>, base: seq<Line>, cur: seq<Line>, i: int, j: int, i2: int, j2: int)
    requires rs != [] && Run(rs, base, cur, i, j, i2, j2)
    ensures var r := rs[|rs| - 1];
            && Run(rs[..|rs| - 1], base, cur, i, j, r.beforeStart, r.afterStart)
            && 0 <= r.beforeStart && r.BeforeEnd() <= |base| && base[r.beforeStart..r.BeforeEnd()] == r.before
            && 0 <= r.afterStart && r.AfterEnd() <= |cur| && cur[r.afterStart..r.AfterEnd()] == r.after
            && Run([], base, cur, r.BeforeEnd(), r.AfterEnd(), i2, j2)
  {
    var n := |rs| - 1;
    RunCut(rs, base, cur, i, j, i2, j2, n);
    assert rs[n..] == [rs[n]] + [];
    RunHead(rs[n], [], base, cur, rs[n].beforeStart, rs[n].afterStart, i2, j2);
  }

  // The text after the last region is common to both files.
  lemma LastTail(rs: seq<Region>, base: seq<Line>, cur: seq<Line>)
    requires rs != [] && Carries(rs, base, cur)
    ensures var r := rs[|rs| - 1];
            && Run(rs[..|rs| - 1], base, cur, 0, 0, r.beforeStart, r.afterStart)
            && 0 <= r.beforeStart && r.BeforeEnd() <= |base| && base[r.beforeStart..r.BeforeEnd()] == r.before
            && 0 <= r.afterStart && r.AfterEnd() <= |cur| && cur[r.afterStart..r.AfterEnd()] == r.after
            && base[r.BeforeEnd()..] == cur[r.AfterEnd()..]
  {
    var r := rs[|rs| - 1];
    RunLast(rs, base, cur, 0, 0, |base|, |cur|);
    assert base[r.BeforeEnd()..|base|] == base[r.BeforeEnd()..] && cur[r.AfterEnd()..|cur|] == cur[r.AfterEnd()..];
  }

  lemma RunHead(r: Region, rest: seq<Region>, base: seq<Line>, cur: seq<Line>, i: int, j: int, i2: int, j2: int)
    requires Run([r] + rest, base, cur, i, j, i2, j2)
    ensures 0 <= r.beforeStart && r.BeforeEnd() <= |base| && base[r.beforeStart..r.BeforeEnd()] == r.before
    ensures 0 <= r.afterStart && r.AfterEnd() <= |cur| && cur[r.afterStart..r.AfterEnd()] == r.after
    ensures Run(rest, base, cur, r.BeforeEnd(), r.AfterEnd(), i2, j2)
  {
    assert ([r] + rest)[0] == r && ([r] + rest)[1..] == rest;
  }

  lemma CarriesRun(rs: seq<Region>, base: seq<Line>, cur: seq<Line>)
    requires Carries(rs, base, cur)
    ensures Run(rs, base, cur, 0, 0, |base|, |cur|)
  {
  }

  lemma RunRange(rs: seq<Region>, base: seq<Line>, cur: seq<Line>, i: int, j: int, i2: int, j2: int)
    requires Run(rs, base, cur, i, j, i2, j2)
    ensures 0 <= i <= i2 <= |base| && 0 <= j <= j2 <= |cur|
    ensures rs == [] ==> base[i..i2] == cur[j..j2]
  {
  }

  // Cut in front of region k.
  lemma {:induction false} RunCut(rs: seq<Region>, base: seq<Line>, cur: seq<Line>, i: int, j: int, i2: int, j2: int, k: nat)
    requires Run(rs, base, cur, i, j, i2, j2) && k < |rs|
    ensures Run(rs[..k], base, cur, i, j, rs[k].beforeStart, rs[k].afterStart)
    ensures Run(rs[k..], base, cur, rs[k].beforeStart, rs[k].afterStart, i2, j2)
  {
    if k == 0 {
      assert rs[0..] == rs;
    } else {
      RunCut(rs[1..], base, cur, rs[0].BeforeEnd(), rs[0].AfterEnd(), i2, j2, k - 1);
      assert rs[1..][..k - 1] == rs[..k][1..] && rs[1..][k - 1..] == rs[k..];
    }
  }

  // Give back the last n lines of the gap that ends a run.
  lemma {:induction false} RunShrink(rs: seq<Region>, base: seq<Line>, cur: seq<Line>, i: int, j: int, i2: int, j2: int, n: int)
    requires Run(rs, base, cur, i, j, i2, j2) && 0 <= n
    requires if rs == [] then j <= j2 - n else rs[|rs| - 1].AfterEnd() <= j2 - n
    ensures Run(rs, base, cur, i, j, i2 - n, j2 - n)
    ensures base[i2 - n..i2] == cur[j2 - n..j2]
  {
    if rs == [] {
      var gap := j2 - j;
      assert |base[i..i2]| == |cur[j..j2]|;
      SubStretch(base, cur, i, j, gap, 0, gap - n);
      SubStretch(base, cur, i, j, gap, gap - n, gap);
    } else {
      RunShrink(rs[1..], base, cur, rs[0].BeforeEnd(), rs[0].AfterEnd(), i2, j2, n);
    }
  }

  lemma RunNone(base: seq<Line>, cur: seq<Line>, i: int, j: int, i2: int, j2: int, m: int, n: int, rs: seq<Region>)
    requires Run(rs, base, cur, i, j, i2, j2) && Run(rs, base, cur, i, j, m, n) && m <= i2 && n <= j2 && base[m..i2] == cur[n..j2]
    ensures Run([], base, cur, m, n, i2, j2)
  {
  }

  // Cut at newer position n, when the first k regions end before it and the others start after it.
  lemma RunCutAt(rs: seq<Region>, base: seq<Line>, cur: seq<Line>, i: int, j: int, i2: int, j2: int, k: nat, n: int) returns (m: int)
    requires Run(rs, base, cur, i, j, i2, j2) && k <= |rs|
    requires j <= n <= j2
    requires k > 0 ==> rs[k - 1].AfterEnd() <= n
    requires k < |rs| ==> n <= rs[k].afterStart
    ensures m == if k < |rs| then n + rs[k].beforeStart - rs[k].afterStart else n + i2 - j2
    ensures Run(rs[..k], base, cur, i, j, m, n)
    ensures Run(rs[k..], base, cur, m, n, i2, j2)
  {
    hide *;
    if k < |rs| {
      m := n + rs[k].beforeStart - rs[k].afterStart;
      RunCut(rs, base, cur, i, j, i2, j2, k);
      RunRange(rs[..k], base, cur, i, j, rs[k].beforeStart, rs[k].afterStart);
      RunShrink(rs[..k], base, cur, i, j, rs[k].beforeStart, rs[k].afterStart, rs[k].afterStart - n);
      RunRange(rs[..k], base, cur, i, j, m, n);
      RunWiden(rs[k..], base, cur, m, n, rs[k].beforeStart, rs[k].afterStart, i2, j2);
    } else {
      m := n + i2 - j2;
      RunShrink(rs, base, cur, i, j, i2, j2, j2 - n);
      RunNone(base, cur, i, j, i2, j2, m, n, rs);
      assert rs[..k] == rs && rs[k..] == [];
    }
  }

  lemma {:induction false} RunBounds(rs: seq<Region>, base: seq<Line>, cur: seq<Line>, i: int, j: int, i2: int, j2: int)
    requires Run(rs, base, cur, i, j, i2, j2)
    ensures forall k :: 0 <= k < |rs| ==>
              && i <= rs[k].beforeStart && rs[k].BeforeEnd() <= i2
              && j <= rs[k].afterStart && rs[k].AfterEnd() <= j2
              && base[rs[k].beforeStart..rs[k].BeforeEnd()] == rs[k].before
              && cur[rs[k].afterStart..rs[k].AfterEnd()] == rs[k].after
    ensures forall k, l :: 0 <= k < l < |rs| ==> rs[k].BeforeEnd() <= rs[l].beforeStart && rs[k].AfterEnd() <= rs[l].afterStart
  {
    if rs != [] {
      RunBounds(rs[1..], base, cur, rs[0].BeforeEnd(), rs[0].AfterEnd(), i2, j2);
      assert rs == [rs[0]] + rs[1..];
    }
  }

  /** A run speaks only of the text it spans: the newer file may change elsewhere, and
      may move by `shift` lines. */
  lemma {:induction false} RunMoved(rs: seq<Region>, base: seq<Line>, cur: seq<Line>, next: seq<Line>, i: int, j: int, i2: int, j2: int, shift: int)
    requires Run(rs, base, cur, i, j, i2, j2)
    requires 0 <= j + shift && j2 + shift <= |next|
    requires next[j + shift..j2 + shift] == cur[j..j2]
    ensures Run(Shift(rs, shift), base, next, i, j + shift, i2, j2 + shift)
  {
    if rs != [] {
      var r := rs[0];
      ThreeStretches(next, cur, j + shift, j, j2 - j, r.afterStart - j, r.AfterEnd() - j);
      RunMoved(rs[1..], base, cur, next, r.BeforeEnd(), r.AfterEnd(), i2, j2, shift);
      assert Shift(rs, shift)[1..] == Shift(rs[1..], shift);
    }
  }

  lemma RunUnmoved(rs: seq<Region>, base: seq<Line>, cur: seq<Line>, next: seq<Line>, i: int, j: int, i2: int, j2: int)
    requires Run(rs, base, cur, i, j, i2, j2)
    requires j2 <= |next| && next[j..j2] == cur[j..j2]
    ensures Run(rs, base, next, i, j, i2, j2)
  {
    RunMoved(rs, base, cur, next, i, j, i2, j2, 0);
    assert Shift(rs, 0) == rs;
  }

  // The older file, too, matters only where the run reads it.
  lemma {:induction false} RunRebased(rs: seq<Region>, base: seq<Line>, next: seq<Line>, cur: seq<Line>, i: int, j: int, i2: int, j2: int)
    requires Run(rs, base, cur, i, j, i2, j2)
    requires i2 <= |next| && next[i..i2] == base[i..i2]
    ensures Run(rs, next, cur, i, j, i2, j2)
  {
    if rs != [] {
      var r := rs[0];
      ThreeStretches(next, base, i, i, i2 - i, r.beforeStart - i, r.BeforeEnd() - i);
      RunRebased(rs[1..], base, next, cur, r.BeforeEnd(), r.AfterEnd(), i2, j2);
    }
  }

  // A run may give up the first line of its first gap.
  lemma RunAdvance(rs: seq<Region>, base: seq<Line>, cur: seq<Line>, i: int, j: int, i2: int, j2: int)
    requires Run(rs, base, cur, i, j, i2, j2)
    requires if rs == [] then j < j2 else j < rs[0].afterStart
    ensures Run(rs, base, cur, i + 1, j + 1, i2, j2)
  {
    var n := if rs == [] then j2 - j else rs[0].afterStart - j;
    assert |base[i..if rs == [] then i2 else rs[0].beforeStart]| == n;
    SubStretch(base, cur, i, j, n, 1, n);
  }

  // Display flags do not matter to a run.
  lemma {:induction false} RunFlags(rs: seq<Region>, qs: seq<Region>, base: seq<Line>, cur: seq<Line>, i: int, j: int, i2: int, j2: int)
    requires Run(rs, base, cur, i, j, i2, j2)
    requires |qs| == |rs| && forall k :: 0 <= k < |rs| ==> qs[k] == rs[k].(hidden := qs[k].hidden, highlighted := qs[k].highlighted)
    ensures Run(qs, base, cur, i, j, i2, j2)
  {
    if rs != [] {
      RunFlags(rs[1..], qs[1..], base, cur, rs[0].BeforeEnd(), rs[0].AfterEnd(), i2, j2);
    }
  }

  // ----- What a run means

  // Undoing the last region: the older file takes its new text, the rest still carries on.
  lemma PeelLast(rs: seq<Region>, base: seq<Line>, cur: seq<Line>) returns (mid: seq<Line>)
    requires rs != [] && Carries(rs, base, cur)
    ensures var r := rs[|rs| - 1];
            && 0 <= r.beforeStart && r.BeforeEnd() <= |base|
            && mid == Spliced(base, r.beforeStart, r.BeforeEnd(), r.after)
            && Carries(rs[..|rs| - 1], mid, cur)
  {
    LastTail(rs, base, cur);
    var r := rs[|rs| - 1];
    mid := Spliced(base, r.beforeStart, r.BeforeEnd(), r.after);
    assert |base[r.BeforeEnd()..]| == |cur[r.AfterEnd()..]|;
    SplicedTail(base, r.beforeStart, r.BeforeEnd(), r.after, cur, r.afterStart);
    RunToEnd(rs[..|rs| - 1], base, mid, cur, r.beforeStart, r.afterStart);
  }

  // A run to the start of a common tail, over an older file changed only in that tail.
  lemma RunToEnd(rs: seq<Region>, base: seq<Line>, next: seq<Line>, cur: seq<Line>, m: int, n: int)
    requires Run(rs, base, cur, 0, 0, m, n)
    requires m <= |next| && next[..m] == base[..m] && next[m..] == cur[n..]
    ensures Carries(rs, next, cur)
  {
    assert next[0..m] == next[..m] && base[0..m] == base[..m];
    RunRebased(rs, base, next, cur, 0, 0, m, n);
    assert |next[m..]| == |cur[n..]|;
    RunExtend(rs, next, cur, 0, 0, m, n, |next| - m);
  }

  /** The meaning of a region list: replacing old sides by new sides in the older file
      gives exactly the newer file. */
  lemma {:induction false} CarriesPatches(rs: seq<Region>, base: seq<Line>, cur: seq<Line>)
    requires Carries(rs, base, cur)
    ensures Fits(rs, base) && Patched(rs, base) == cur
    decreases |rs|
  {
    RunBounds(rs, base, cur, 0, 0, |base|, |cur|);
    if rs == [] {
      assert base[0..|base|] == base && cur[0..|cur|] == cur;
    } else {
      var mid := PeelLast(rs, base, cur);
      CarriesPatches(rs[..|rs| - 1], mid, cur);
    }
  }

  // Where the new sides sit: after the old ones, moved by the growth of the regions ahead.
  predicate Placed(rs: seq<Region>)
  {
    forall k :: 0 <= k < |rs| ==> rs[k].afterStart == rs[k].beforeStart + Growth(rs[..k])
  }

  lemma CarriesPlaced(rs: seq<Region>, base: seq<Line>, cur: seq<Line>)
    requires Carries(rs, base, cur)
    ensures Placed(rs)
  {
    forall k | 0 <= k < |rs| ensures rs[k].afterStart == rs[k].beforeStart + Growth(rs[..k]) {
      RunCut(rs, base, cur, 0, 0, |base|, |cur|, k);
      RunGrowth(rs[..k], base, cur, 0, 0, rs[k].beforeStart, rs[k].afterStart);
    }
  }

  // How much longer the newer file is than the older one.
  function Growth(rs: seq<Region>): int
  {
    if rs == [] then 0 else |rs[0].after| - |rs[0].before| + Growth(rs[1..])
  }

  lemma {:induction false} RunGrowth(rs: seq<Region>, base: seq<Line>, cur: seq<Line>, i: int, j: int, i2: int, j2: int)
    requires Run(rs, base, cur, i, j, i2, j2)
    ensures j2 - j == i2 - i + Growth(rs)
  {
    if rs == [] {
      assert |base[i..i2]| == |cur[j..j2]|;
    } else {
      assert |base[i..rs[0].beforeStart]| == |cur[j..rs[0].afterStart]|;
      RunGrowth(rs[1..], base, cur, rs[0].BeforeEnd(), rs[0].AfterEnd(), i2, j2);
    }
  }

  lemma GrowthCons(r: Region, rs: seq<Region>)
    ensures Growth([r] + rs) == |r.after| - |r.before| + Growth(rs)
  {
    assert ([r] + rs)[1..] == rs;
  }

  lemma {:induction false} GrowthNext(rs: seq<Region>, k: nat)
    requires k < |rs|
    ensures Growth(rs[..k + 1]) == Growth(rs[..k]) + |rs[k].after| - |rs[k].before|
  {
    if k > 0 {
      GrowthNext(rs[1..], k - 1);
      assert rs[1..][..k] == rs[..k + 1][1..] && rs[1..][..k - 1] == rs[..k][1..];
    }
  }

  /** Conversely, regions that fit the older file, with new sides placed by the growth of
      the regions before them, carry it to their patch. */
  lemma {:induction false} PatchCarries(rs: seq<Region>, base: seq<Line>)
    requires Fits(rs, base) && Placed(rs)
    ensures Carries(rs, base, Patched(rs, base))
    decreases |rs|
  {
    if rs != [] {
      var n := |rs| - 1;
      var r := rs[n];
      var mid := Spliced(base, r.beforeStart, r.BeforeEnd(), r.after);
      FitsPrefix(rs, base);
      PlacedPrefix(rs);
      PatchCarries(rs[..n], mid);
      Unpeel(rs, base, Patched(rs, base));
    }
  }

  lemma PlacedPrefix(rs: seq<Region>)
    requires rs != [] && Placed(rs)
    ensures Placed(rs[..|rs| - 1])
  {
    var n := |rs| - 1;
    forall k | 0 <= k < n ensures rs[..n][k].afterStart == rs[..n][k].beforeStart + Growth(rs[..n][..k]) {
      assert rs[..n][..k] == rs[..k];
    }
  }

  lemma Unpeel(rs: seq<Region>, base: seq<Line>, cur: seq<Line>)
    requires rs != [] && Fits(rs, base) && Placed(rs)
    requires var r := rs[|rs| - 1];
             Carries(rs[..|rs| - 1], Spliced(base, r.beforeStart, r.BeforeEnd(), r.after), cur)
    ensures Carries(rs, base, cur)
  {
    hide *;
    var n := |rs| - 1;
    var r, head := rs[n], rs[..n];
    LastFits(rs, base);
    var mid := Spliced(base, r.beforeStart, r.BeforeEnd(), r.after);
    LastPlaced(rs, base, mid, cur);
    UnpeelHead(head, r, mid, cur);
    UnpeelTail(head, r, base, mid, cur);
    assert head + [r] == rs;
  }

  lemma LastFits(rs: seq<Region>, base: seq<Line>)
    requires rs != [] && Fits(rs, base)
    ensures var r := rs[|rs| - 1];
            && 0 <= r.beforeStart <= r.BeforeEnd() <= |base| && base[r.beforeStart..r.BeforeEnd()] == r.before
            && r.beforeStart <= |Spliced(base, r.beforeStart, r.BeforeEnd(), r.after)|
  {
  }

  // Cut behind all regions.
  lemma RunCutEnd(rs: seq<Region>, base: seq<Line>, cur: seq<Line>, n: int) returns (m: int)
    requires Run(rs, base, cur, 0, 0, |base|, |cur|) && 0 <= n <= |cur| && (rs != [] ==> rs[|rs| - 1].AfterEnd() <= n)
    ensures m == n + |base| - |cur| && Run(rs, base, cur, 0, 0, m, n) && Run([], base, cur, m, n, |base|, |cur|)
  {
    hide *;
    m := RunCutAt(rs, base, cur, 0, 0, |base|, |cur|, |rs|, n);
    assert rs[..|rs|] == rs && rs[|rs|..] == [];
  }

  lemma TailsAgree(base: seq<Line>, cur: seq<Line>, m: int, n: int)
    requires Run([], base, cur, m, n, |base|, |cur|)
    ensures 0 <= m <= |base| && 0 <= n <= |cur| && base[m..] == cur[n..]
  {
    assert base[m..|base|] == base[m..] && cur[n..|cur|] == cur[n..];
  }

  // In front of r the head ends, and behind it the texts agree.
  lemma UnpeelHead(head: seq<Region>, r: Region, mid: seq<Line>, cur: seq<Line>)
    requires Carries(head, mid, cur) && 0 <= r.afterStart <= |cur| && r.afterStart - r.beforeStart == |cur| - |mid|
    requires head != [] ==> head[|head| - 1].AfterEnd() <= r.afterStart
    ensures 0 <= r.beforeStart <= |mid| && Run(head, mid, cur, 0, 0, r.beforeStart, r.afterStart) && mid[r.beforeStart..] == cur[r.afterStart..]
  {
    hide *;
    CarriesRun(head, mid, cur);
    var m := RunCutEnd(head, mid, cur, r.afterStart);
    RunRange(head, mid, cur, 0, 0, m, r.afterStart);
    TailsAgree(mid, cur, m, r.afterStart);
  }

  lemma LastPlaced(rs: seq<Region>, base: seq<Line>, mid: seq<Line>, cur: seq<Line>)
    requires rs != [] && Fits(rs, base) && Placed(rs)
    requires Carries(rs[..|rs| - 1], mid, cur) && rs[|rs| - 1].beforeStart <= |mid|
    ensures var r := rs[|rs| - 1];
            && 0 <= r.afterStart <= |cur| && r.afterStart - r.beforeStart == |cur| - |mid|
            && (|rs| > 1 ==> rs[|rs| - 2].AfterEnd() <= r.afterStart)
  {
    var n := |rs| - 1;
    RunGrowth(rs[..n], mid, cur, 0, 0, |mid|, |cur|);
    assert rs[n].afterStart == rs[n].beforeStart + Growth(rs[..n]);
    if n > 0 {
      GrowthNext(rs, n - 1);
      RunBounds(rs[..n], mid, cur, 0, 0, |mid|, |cur|);
      assert rs[..n][n - 1] == rs[n - 1];
      assert rs[n - 1].BeforeEnd() <= rs[n].beforeStart;
    }
  }

  lemma UnpeelTail(head: seq<Region>, r: Region, base: seq<Line>, mid: seq<Line>, cur: seq<Line>)
    requires 0 <= r.beforeStart && r.BeforeEnd() <= |base| && base[r.beforeStart..r.BeforeEnd()] == r.before
    requires mid == Spliced(base, r.beforeStart, r.BeforeEnd(), r.after)
    requires Run(head, mid, cur, 0, 0, r.beforeStart, r.afterStart)
    requires mid[r.beforeStart..] == cur[r.afterStart..]
    ensures Carries(head + [r], base, cur)
  {
    assert |mid[r.beforeStart..]| == |cur[r.afterStart..]|;
    SplicedTail(base, r.beforeStart, r.BeforeEnd(), r.after, cur, r.afterStart);
    RunRebased(head, mid, base, cur, 0, 0, r.beforeStart, r.afterStart) by {
      assert mid[0..r.beforeStart] == mid[..r.beforeStart] == base[..r.beforeStart] == base[0..r.beforeStart];
    }
    RunSnocEnd(head, r, base, cur, 0, 0);
  }
}
