/** Showing a composition: fragments of text around the visible regions, and what applying
    them to the original file does. */
module DisplayFacts {
  import opened Text
  import opened Regions
  import opened RegionEdits
  import opened Matcher
  import opened Review
  import opened ReviewText
  import opened ReviewRender
  import opened Recall
  import opened CompositionFacts

  function Visible(rs: seq<Region>): seq<Region>
  {
    if rs == [] then [] else (if rs[0].hidden then [] else [rs[0]]) + Visible(rs[1..])
  }

  // The regions and the remembered lines agree with the two files.
  ghost predicate Denotes(rs: seq<Region>, original: map<int, Line>, current: map<int, Line>, base: seq<Line>, cur: seq<Line>)
  {
    Carries(rs, base, cur) && Knows(original, base) && Knows(current, cur)
  }

  // The fragment is the region with some unchanged lines around it.
  predicate Wraps(f: Region, r: Region)
  {
    var p, q := r.beforeStart - f.beforeStart, f.BeforeEnd() - r.BeforeEnd();
    && 0 <= p && 0 <= q
    && p <= |f.before| && q <= |f.before|
    && f.before == f.before[..p] + r.before + f.before[|f.before| - q..]
    && f.after == f.before[..p] + r.after + f.before[|f.before| - q..]
  }

  lemma WrapsSelf(f: Region, r: Region)
    requires f.beforeStart == r.beforeStart && f.before == r.before && f.after == r.after
    ensures Wraps(f, r)
  {
    assert f.before[..0] + r.before + f.before[|f.before|..] == r.before;
    assert f.before[..0] + r.after + f.before[|f.before|..] == r.after;
  }

  lemma WrapsLeft(f: Region, g: Region, r: Region, line: Line)
    requires Wraps(f, r) && g.beforeStart == f.beforeStart - 1 && g.before == [line] + f.before && g.after == [line] + f.after
    ensures Wraps(g, r)
  {
    var p, q := r.beforeStart - f.beforeStart, f.BeforeEnd() - r.BeforeEnd();
    assert g.before[..p + 1] == [line] + f.before[..p];
    assert g.before[|g.before| - q..] == f.before[|f.before| - q..];
  }

  lemma WrapsRight(f: Region, g: Region, r: Region, line: Line)
    requires Wraps(f, r) && g.beforeStart == f.beforeStart && g.before == f.before + [line] && g.after == f.after + [line]
    ensures Wraps(g, r)
  {
    var p, q := r.beforeStart - f.beforeStart, f.BeforeEnd() - r.BeforeEnd();
    var head, tail := f.before[..p], f.before[|f.before| - q..];
    assert g.before[..p] == head;
    assert g.before[|g.before| - q - 1..] == tail + [line];
    assert head + r.before + tail + [line] == head + r.before + (tail + [line]);
    assert head + r.after + tail + [line] == head + r.after + (tail + [line]);
  }

  // ----- Patching, piece by piece

  lemma WrapSpliced(f: Region, r: Region, base: seq<Line>)
    requires Wraps(f, r) && Reads(base, f.beforeStart, f.before)
    ensures Reads(base, r.beforeStart, r.before)
    ensures Spliced(base, f.beforeStart, f.BeforeEnd(), f.after) == Spliced(base, r.beforeStart, r.BeforeEnd(), r.after)
  {
    hide *;
    var head, tail := WrapParts(f, r);
    ReadsAround(base, f);
    var x, y := base[..f.beforeStart], base[f.BeforeEnd()..];
    assert x + (head + r.before + tail) + y == (x + head) + r.before + (tail + y);
    assert x + (head + r.after + tail) + y == (x + head) + r.after + (tail + y);
    SplicedAround(base, x, f, y, f.after);
    SplicedAround(base, x + head, r, tail + y, r.after);
  }

  lemma WrapParts(f: Region, r: Region) returns (head: seq<Line>, tail: seq<Line>)
    requires Wraps(f, r)
    ensures f.beforeStart + |head| == r.beforeStart && f.before == head + r.before + tail && f.after == head + r.after + tail
  {
    var p, q := r.beforeStart - f.beforeStart, f.BeforeEnd() - r.BeforeEnd();
    head, tail := f.before[..p], f.before[|f.before| - q..];
  }

  lemma ReadsAround(base: seq<Line>, f: Region)
    requires Reads(base, f.beforeStart, f.before)
    ensures 0 <= f.beforeStart <= f.BeforeEnd() <= |base| && base == base[..f.beforeStart] + f.before + base[f.BeforeEnd()..]
  {
  }

  lemma SplicedAround(base: seq<Line>, x: seq<Line>, r: Region, y: seq<Line>, mid: seq<Line>)
    requires base == x + r.before + y && |x| == r.beforeStart
    ensures Reads(base, r.beforeStart, r.before) && Spliced(base, r.beforeStart, r.BeforeEnd(), mid) == x + mid + y
    ensures 0 <= r.beforeStart <= r.BeforeEnd() <= |base|
  {
  }

  /** Context changes nothing: patching fragments is patching the regions they wrap. */
  lemma {:induction false} WrapsPatched(fs: seq<Region>, rs: seq<Region>, base: seq<Line>)
    requires |fs| == |rs| && Fits(fs, base) && forall k :: 0 <= k < |fs| ==> Wraps(fs[k], rs[k])
    ensures Fits(rs, base) && Patched(fs, base) == Patched(rs, base)
    decreases |fs|
  {
    WrapsFit(fs, rs, base);
    if fs != [] {
      var n := |fs| - 1;
      WrapSpliced(fs[n], rs[n], base);
      FitsPrefix(fs, base);
      WrapsPatched(fs[..n], rs[..n], Spliced(base, fs[n].beforeStart, fs[n].BeforeEnd(), fs[n].after));
    }
  }

  lemma WrapsFit(fs: seq<Region>, rs: seq<Region>, base: seq<Line>)
    requires |fs| == |rs| && Fits(fs, base) && forall k :: 0 <= k < |fs| ==> Wraps(fs[k], rs[k])
    ensures Fits(rs, base)
  {
    forall k | 0 <= k < |rs| ensures Reads(base, rs[k].beforeStart, rs[k].before) && fs[k].beforeStart <= rs[k].beforeStart && rs[k].BeforeEnd() <= fs[k].BeforeEnd() {
      assert Wraps(fs[k], rs[k]);
      WrapSpliced(fs[k], rs[k], base);
    }
  }

  /** Patching is done one half at a time: the later regions first. */
  lemma {:induction false} PatchedConcat(ps: seq<Region>, qs: seq<Region>, base: seq<Line>)
    requires Fits(ps + qs, base)
    ensures Fits(qs, base) && Fits(ps, Patched(qs, base)) && Patched(ps + qs, base) == Patched(ps, Patched(qs, base))
    decreases |qs|
  {
    hide *;
    FitsPart(ps, qs, base);
    if qs == [] {
      NothingPatched(base);
      assert ps + qs == ps;
    } else {
      var n := |qs| - 1;
      assert (ps + qs)[..|ps + qs| - 1] == ps + qs[..n] && (ps + qs)[|ps + qs| - 1] == qs[n];
      var next := Unpatched(ps + qs, base);
      var same := Unpatched(qs, base);
      PatchedConcat(ps, qs[..n], next);
    }
  }

  lemma NothingPatched(base: seq<Line>)
    ensures Fits([], base) && Patched([], base) == base
  {
  }

  lemma FitsPart(ps: seq<Region>, qs: seq<Region>, base: seq<Line>)
    requires Fits(ps + qs, base)
    ensures Fits(qs, base)
  {
    forall k | 0 <= k < |qs| ensures (ps + qs)[|ps| + k] == qs[k] {}
  }

  function MovedBy(rs: seq<Region>, offset: int, shift: int): (ms: seq<Region>)
    ensures |ms| == |rs|
  {
    seq(|rs|, k requires 0 <= k < |rs| => rs[k].(beforeStart := rs[k].beforeStart + offset, afterStart := rs[k].afterStart + shift))
  }

  /** Patching inside a stretch of a larger file patches that stretch. */
  lemma {:induction false} PatchedWithin(rs: seq<Region>, a: seq<Line>, base: seq<Line>, offset: int, shift: int)
    requires Fits(rs, a) && Reads(base, offset, a)
    ensures Fits(MovedBy(rs, offset, shift), base)
    ensures Patched(MovedBy(rs, offset, shift), base) == Spliced(base, offset, offset + |a|, Patched(rs, a))
    decreases |rs|
  {
    hide *;
    FitsWithin(rs, a, base, offset, shift);
    if rs == [] {
      NothingWithin(a, base, offset, shift);
    } else {
      var n := |rs| - 1;
      var r := rs[n];
      var a' := Unpatched(rs, a);
      MovedLast(rs, offset, shift);
      var base' := Unpatched(MovedBy(rs, offset, shift), base);
      SplicedWithin(a, base, offset, r, a', base');
      PatchedWithin(rs[..n], a', base', offset, shift);
      Respliced(base, base', offset, |a|, |a'|, Patched(rs[..n], a'));
    }
  }

  lemma MovedLast(rs: seq<Region>, offset: int, shift: int)
    requires rs != []
    ensures var n, ms := |rs| - 1, MovedBy(rs, offset, shift);
            && |ms| == |rs| && ms[..n] == MovedBy(rs[..n], offset, shift)
            && ms[n].beforeStart == offset + rs[n].beforeStart && ms[n].BeforeEnd() == offset + rs[n].BeforeEnd()
            && ms[n].after == rs[n].after
  {
  }

  lemma NothingWithin(a: seq<Line>, base: seq<Line>, offset: int, shift: int)
    requires Reads(base, offset, a)
    ensures Patched(MovedBy([], offset, shift), base) == Spliced(base, offset, offset + |a|, Patched([], a))
  {
    assert base == base[..offset] + a + base[offset + |a|..];
  }

  // Patching the last region, the others are left to patch.
  lemma Unpatched(rs: seq<Region>, base: seq<Line>) returns (next: seq<Line>)
    requires rs != [] && Fits(rs, base)
    ensures var n := |rs| - 1;
            && 0 <= rs[n].beforeStart <= rs[n].BeforeEnd() <= |base|
            && next == Spliced(base, rs[n].beforeStart, rs[n].BeforeEnd(), rs[n].after)
            && Fits(rs[..n], next) && Patched(rs, base) == Patched(rs[..n], next)
  {
    FitsPrefix(rs, base);
    var n := |rs| - 1;
    next := Spliced(base, rs[n].beforeStart, rs[n].BeforeEnd(), rs[n].after);
  }

  lemma Respliced(base: seq<Line>, base': seq<Line>, offset: int, n: int, n': int, mid: seq<Line>)
    requires 0 <= offset <= offset + n <= |base| && 0 <= offset <= offset + n' <= |base'| && 0 <= n && 0 <= n'
    requires base'[..offset] == base[..offset] && base'[offset + n'..] == base[offset + n..]
    ensures Spliced(base', offset, offset + n', mid) == Spliced(base, offset, offset + n, mid)
  {
  }

  lemma SplicedWithin(a: seq<Line>, base: seq<Line>, offset: int, r: Region, a': seq<Line>, base': seq<Line>)
    requires Reads(base, offset, a) && 0 <= r.beforeStart <= r.BeforeEnd() <= |a| && 0 <= offset + r.beforeStart <= offset + r.BeforeEnd() <= |base|
    requires a' == Spliced(a, r.beforeStart, r.BeforeEnd(), r.after)
    requires base' == Spliced(base, offset + r.beforeStart, offset + r.BeforeEnd(), r.after)
    ensures Reads(base', offset, a')
    ensures 0 <= offset <= offset + |a| <= |base| && offset + |a'| <= |base'|
    ensures base'[..offset] == base[..offset] && base'[offset + |a'|..] == base[offset + |a|..]
  {
    assert base == base[..offset] + a + base[offset + |a|..];
    assert base' == base[..offset] + a' + base[offset + |a|..];
  }

  lemma FitsWithin(rs: seq<Region>, a: seq<Line>, base: seq<Line>, offset: int, shift: int)
    requires Fits(rs, a) && Reads(base, offset, a)
    ensures Fits(MovedBy(rs, offset, shift), base)
  {
    forall k | 0 <= k < |rs| ensures Reads(base, rs[k].beforeStart + offset, rs[k].before) {
      assert a[rs[k].beforeStart..rs[k].BeforeEnd()] == rs[k].before;
      SliceSlice(base, offset, |a|, rs[k].beforeStart, rs[k].BeforeEnd());
    }
  }

  // ----- The text that shows only the visible regions

  function ShownText(rs: seq<Region>, base: seq<Line>): seq<Line>
  {
    if Fits(Visible(rs), base) then Patched(Visible(rs), base) else base
  }

  lemma {:induction false} VisibleConcat(ps: seq<Region>, qs: seq<Region>)
    ensures Visible(ps + qs) == Visible(ps) + Visible(qs)
  {
    hide *;
    if ps == [] {
      NoVisible();
      assert ps + qs == qs && [] + Visible(qs) == Visible(qs);
    } else {
      var r, rest := ps[0], ps[1..];
      assert ps == [r] + rest && ps + qs == [r] + (rest + qs);
      VisibleConcat(rest, qs);
      VisibleCons(r, rest);
      VisibleCons(r, rest + qs);
    }
  }

  lemma NoVisible()
    ensures Visible([]) == []
  {
  }

  lemma VisibleCons(r: Region, rest: seq<Region>)
    ensures Visible([r] + rest) == (if r.hidden then [] else [r]) + Visible(rest)
  {
    assert ([r] + rest)[1..] == rest;
  }

  lemma {:induction false} VisibleIn(rs: seq<Region>) returns (at: seq<nat>)
    ensures |at| == |Visible(rs)| && forall k :: 0 <= k < |at| ==> at[k] < |rs| && Visible(rs)[k] == rs[at[k]]
    ensures forall k, l :: 0 <= k < l < |at| ==> at[k] < at[l]
  {
    if rs == [] {
      at := [];
    } else {
      var rest := VisibleIn(rs[1..]);
      at := (if rs[0].hidden then [] else [0]) + seq(|rest|, k requires 0 <= k < |rest| => rest[k] + 1);
    }
  }

  lemma VisibleFits(rs: seq<Region>, base: seq<Line>, cur: seq<Line>)
    requires Carries(rs, base, cur)
    ensures Fits(Visible(rs), base)
  {
    CarriesPatches(rs, base, cur);
    hide Carries, Patched;
    var at := VisibleIn(rs);
  }

  lemma {:induction false} AllVisible(rs: seq<Region>)
    requires forall k :: 0 <= k < |rs| ==> !rs[k].hidden
    ensures Visible(rs) == rs
  {
    if rs != [] {
      AllVisible(rs[1..]);
    }
  }

  /** With nothing hidden, the text shown is the newer file; with everything hidden, the older. */
  lemma ShownEnds(rs: seq<Region>, base: seq<Line>, cur: seq<Line>)
    requires Carries(rs, base, cur)
    ensures (forall k :: 0 <= k < |rs| ==> !rs[k].hidden) ==> ShownText(rs, base) == cur
    ensures (forall k :: 0 <= k < |rs| ==> rs[k].hidden) ==> ShownText(rs, base) == base
  {
    CarriesPatches(rs, base, cur);
    if forall k :: 0 <= k < |rs| ==> !rs[k].hidden {
      AllVisible(rs);
    }
    if forall k :: 0 <= k < |rs| ==> rs[k].hidden {
      NoneVisible(rs);
    }
  }

  lemma {:induction false} NoneVisible(rs: seq<Region>)
    requires forall k :: 0 <= k < |rs| ==> rs[k].hidden
    ensures Visible(rs) == []
  {
    if rs != [] {
      NoneVisible(rs[1..]);
    }
  }

  // ----- Joining adjacent regions

  predicate Adjacent(u: Region, v: Region)
  {
    u.hidden == v.hidden && u.BeforeEnd() == v.beforeStart && u.AfterEnd() == v.afterStart
  }

  function Joined(u: Region, v: Region): Region
  {
    u.(before := u.before + v.before, after := u.after + v.after)
  }

  /** Regions join if the one begins in both files where the other ends, and both are hidden or neither
      is; joined, they hold the lines of both, in order. */
  lemma JoinMeans(u: Region, v: Region)
    ensures Adjacent(u, v) <==>
              (u.hidden <==> v.hidden) && v.beforeStart == u.beforeStart + |u.before| && v.afterStart == u.afterStart + |u.after|
    ensures Joined(u, v) == Region(u.beforeStart, u.afterStart, u.before + v.before, u.after + v.after, u.hidden, u.highlighted)
  {
  }

  // One more region joins the last one, if it is adjacent.
  function JoinMore(joined: seq<Region>, r: Region): seq<Region>
  {
    var n := |joined|;
    if n > 0 && Adjacent(joined[n - 1], r) then joined[..n - 1] + [Joined(joined[n - 1], r)] else joined + [r]
  }

  function JoinedAll(rs: seq<Region>): seq<Region>
  {
    if rs == [] then [] else JoinMore(JoinedAll(rs[..|rs| - 1]), rs[|rs| - 1])
  }

  lemma JoinedNext(rs: seq<Region>, i: nat)
    requires i < |rs|
    ensures JoinedAll(rs[..i + 1]) == JoinMore(JoinedAll(rs[..i]), rs[i])
  {
    assert rs[..i + 1][..i] == rs[..i];
    hide JoinMore;
  }

  // A run of adjacent regions as one.
  function JoinRun(rs: seq<Region>): Region
    requires rs != []
  {
    if |rs| == 1 then rs[0] else Joined(JoinRun(rs[..|rs| - 1]), rs[|rs| - 1])
  }

  // The j-th joined region is the run between two cuts, adjacent within, and to nothing behind.
  ghost predicate RunAt(js: seq<Region>, rs: seq<Region>, cuts: seq<nat>, j: nat)
    requires j < |js| && |cuts| == |js| + 1
  {
    && cuts[j] < cuts[j + 1] <= |rs| && js[j] == JoinRun(rs[cuts[j]..cuts[j + 1]])
    && (forall i :: cuts[j] < i < cuts[j + 1] ==> Adjacent(rs[i - 1], rs[i]))
    && (cuts[j + 1] < |rs| ==> !Adjacent(rs[cuts[j + 1] - 1], rs[cuts[j + 1]]))
  }

  ghost predicate MaximalRuns(js: seq<Region>, rs: seq<Region>, cuts: seq<nat>)
  {
    && |cuts| == |js| + 1 && cuts[0] == 0 && cuts[|js|] == |rs|
    && forall j :: 0 <= j < |js| ==> RunAt(js, rs, cuts, j)
  }

  lemma {:induction false} JoinRunEnds(rs: seq<Region>)
    requires rs != [] && forall i :: 0 < i < |rs| ==> Adjacent(rs[i - 1], rs[i])
    ensures var r, last := JoinRun(rs), rs[|rs| - 1]; r.hidden == last.hidden && r.BeforeEnd() == last.BeforeEnd() && r.AfterEnd() == last.AfterEnd()
  {
    var n := |rs| - 1;
    if n > 0 {
      JoinRunEnds(rs[..n]);
      assert Adjacent(rs[n - 1], rs[n]) && rs[..n][n - 1] == rs[n - 1];
    }
  }

  /** Joining makes one region of every maximal run of adjacent ones. */
  lemma {:induction false} JoinedRuns(rs: seq<Region>) returns (cuts: seq<nat>)
    ensures MaximalRuns(JoinedAll(rs), rs, cuts)
  {
    var n := |rs| - 1;
    if rs == [] {
      cuts := [0];
    } else {
      var was, r := rs[..n], rs[n];
      var prior := JoinedRuns(was);
      var js := JoinedAll(was);
      assert JoinedAll(rs) == JoinMore(js, r);
      if js != [] && Adjacent(js[|js| - 1], r) {
        cuts := prior[..|js|] + [|rs|];
        RunGrows(js, rs, prior, cuts);
      } else {
        cuts := prior + [|rs|];
        RunBegins(js, rs, prior, cuts);
      }
    }
  }

  lemma RunGrows(js: seq<Region>, rs: seq<Region>, prior: seq<nat>, cuts: seq<nat>)
    requires rs != [] && js != [] && MaximalRuns(js, rs[..|rs| - 1], prior) && Adjacent(js[|js| - 1], rs[|rs| - 1]) && cuts == prior[..|js|] + [|rs|]
    ensures MaximalRuns(JoinMore(js, rs[|rs| - 1]), rs, cuts)
  {
    var n, m := |rs| - 1, |js| - 1;
    var was, now := rs[..n], JoinMore(js, rs[n]);
    LastRun(js, rs, prior, m);
    forall j | 0 <= j < |now| ensures RunAt(now, rs, cuts, j) {
      assert RunAt(js, was, prior, j);
      if j < m {
        RunsEarlier(js, was, prior, j, m);
        RunStays(js, rs, prior, now, cuts, j);
      } else {
        GrownRun(js, rs, prior, now, cuts, m);
      }
    }
  }

  // A run stays as long as another follows it.
  lemma RunStays(js: seq<Region>, rs: seq<Region>, prior: seq<nat>, now: seq<Region>, cuts: seq<nat>, j: nat)
    requires rs != [] && |prior| == |js| + 1 && |cuts| == |now| + 1 && j < |js| && j < |now| && now[j] == js[j] && cuts[j] == prior[j] && cuts[j + 1] == prior[j + 1]
    requires RunAt(js, rs[..|rs| - 1], prior, j)
    requires prior[j + 1] == |rs| - 1 ==> |rs| > 1 && !Adjacent(rs[|rs| - 2], rs[|rs| - 1])
    ensures RunAt(now, rs, cuts, j)
  {
    assert rs[..|rs| - 1][prior[j]..prior[j + 1]] == rs[cuts[j]..cuts[j + 1]];
    hide JoinRun, Adjacent;
  }

  lemma GrownRun(js: seq<Region>, rs: seq<Region>, prior: seq<nat>, now: seq<Region>, cuts: seq<nat>, m: nat)
    requires rs != [] && |js| == m + 1 == |now| && |prior| == |js| + 1 && |cuts| == |js| + 1 && cuts[m] == prior[m] && cuts[m + 1] == |rs| && prior[m + 1] == |rs| - 1
    requires RunAt(js, rs[..|rs| - 1], prior, m) && now[m] == Joined(js[m], rs[|rs| - 1]) && |rs| > 1 && Adjacent(rs[|rs| - 2], rs[|rs| - 1])
    ensures RunAt(now, rs, cuts, m)
  {
    var run := rs[cuts[m]..|rs|];
    assert rs[..|rs| - 1][prior[m]..prior[m + 1]] == run[..|run| - 1] && run[|run| - 1] == rs[|rs| - 1];
    hide Adjacent, Joined;
  }

  lemma RunBegins(js: seq<Region>, rs: seq<Region>, prior: seq<nat>, cuts: seq<nat>)
    requires rs != [] && MaximalRuns(js, rs[..|rs| - 1], prior) && cuts == prior + [|rs|]
    requires js != [] ==> !Adjacent(js[|js| - 1], rs[|rs| - 1])
    ensures MaximalRuns(JoinMore(js, rs[|rs| - 1]), rs, cuts)
  {
    var n, m := |rs| - 1, |js|;
    var was, now := rs[..n], JoinMore(js, rs[n]);
    assert rs[n..|rs|] == [rs[n]];
    if js != [] {
      LastRun(js, rs, prior, m - 1);
    }
    forall j | 0 <= j < |now| ensures RunAt(now, rs, cuts, j) {
      if j < m {
        assert RunAt(js, was, prior, j);
        if j < m - 1 {
          RunsEarlier(js, was, prior, j, m - 1);
        }
        RunStays(js, rs, prior, now, cuts, j);
      }
    }
  }

  // The last run ends as its last region does.
  lemma LastRun(js: seq<Region>, rs: seq<Region>, prior: seq<nat>, m: nat)
    requires rs != [] && MaximalRuns(js, rs[..|rs| - 1], prior) && m + 1 == |js|
    ensures |rs| > 1 && (Adjacent(js[m], rs[|rs| - 1]) <==> Adjacent(rs[|rs| - 2], rs[|rs| - 1]))
  {
    var was := rs[..|rs| - 1];
    assert RunAt(js, was, prior, m);
    JoinRunEnds(was[prior[m]..prior[m + 1]]);
  }

  lemma {:induction false} RunsEarlier(js: seq<Region>, rs: seq<Region>, cuts: seq<nat>, j: nat, m: nat)
    requires MaximalRuns(js, rs, cuts) && j < m < |js|
    ensures cuts[j + 1] <= cuts[m] < |rs|
    decreases m - j
  {
    assert RunAt(js, rs, cuts, m) && RunAt(js, rs, cuts, j + 1);
    if j + 1 < m {
      RunsEarlier(js, rs, cuts, j + 1, m);
    }
  }

  // The same change, and the same part of it shown.
  ghost predicate SameShown(xs: seq<Region>, rs: seq<Region>, base: seq<Line>, cur: seq<Line>)
  {
    Carries(xs, base, cur) && ShownText(xs, base) == ShownText(rs, base)
  }

  lemma JoinCarries(ps: seq<Region>, u: Region, v: Region, qs: seq<Region>, base: seq<Line>, cur: seq<Line>)
    requires Carries(ps + [u] + ([v] + qs), base, cur) && Adjacent(u, v)
    ensures Carries(ps + [Joined(u, v)] + qs, base, cur)
  {
    var rs := ps + [u] + ([v] + qs);
    assert rs[..|ps|] == ps && rs[|ps|..] == [u] + ([v] + qs) && rs[|ps|] == u;
    CarriesCut(rs, base, cur, |ps|);
    hide *;
    JoinedRun(u, v, qs, base, cur);
    CarriesJoin(ps, Joined(u, v), qs, base, cur);
  }

  lemma CarriesCut(rs: seq<Region>, base: seq<Line>, cur: seq<Line>, k: nat)
    requires Carries(rs, base, cur) && k < |rs|
    ensures Run(rs[..k], base, cur, 0, 0, rs[k].beforeStart, rs[k].afterStart)
    ensures Run(rs[k..], base, cur, rs[k].beforeStart, rs[k].afterStart, |base|, |cur|)
  {
    RunCut(rs, base, cur, 0, 0, |base|, |cur|, k);
  }

  lemma JoinedRun(u: Region, v: Region, qs: seq<Region>, base: seq<Line>, cur: seq<Line>)
    requires Run([u] + ([v] + qs), base, cur, u.beforeStart, u.afterStart, |base|, |cur|) && Adjacent(u, v)
    ensures var w := Joined(u, v);
            && w.beforeStart == u.beforeStart && w.afterStart == u.afterStart
            && Reads(base, w.beforeStart, w.before) && Reads(cur, w.afterStart, w.after)
            && Run(qs, base, cur, w.BeforeEnd(), w.AfterEnd(), |base|, |cur|)
  {
    hide *;
    JoinedSides(u, v);
    HeadReads(u, [v] + qs, base, cur, u.beforeStart, u.afterStart, |base|, |cur|);
    HeadReads(v, qs, base, cur, u.BeforeEnd(), u.AfterEnd(), |base|, |cur|);
    JoinedReads(u, v, base, cur);
  }

  lemma JoinedReads(u: Region, v: Region, base: seq<Line>, cur: seq<Line>)
    requires Adjacent(u, v) && Reads(base, u.beforeStart, u.before) && Reads(base, v.beforeStart, v.before)
    requires Reads(cur, u.afterStart, u.after) && Reads(cur, v.afterStart, v.after)
    ensures var w := Joined(u, v); Reads(base, w.beforeStart, w.before) && Reads(cur, w.afterStart, w.after)
  {
    hide *;
    JoinedSides(u, v);
    JoinReads(base, u.beforeStart, u.before, v.before);
    JoinReads(cur, u.afterStart, u.after, v.after);
  }

  lemma JoinedSides(u: Region, v: Region)
    requires Adjacent(u, v)
    ensures v.beforeStart == u.beforeStart + |u.before| && v.afterStart == u.afterStart + |u.after|
    ensures var w := Joined(u, v);
            && w.beforeStart == u.beforeStart && w.afterStart == u.afterStart && w.before == u.before + v.before && w.after == u.after + v.after
            && w.BeforeEnd() == v.BeforeEnd() && w.AfterEnd() == v.AfterEnd()
  {
  }

  lemma CarriesJoin(ps: seq<Region>, w: Region, qs: seq<Region>, base: seq<Line>, cur: seq<Line>)
    requires Run(ps, base, cur, 0, 0, w.beforeStart, w.afterStart)
    requires Reads(base, w.beforeStart, w.before) && Reads(cur, w.afterStart, w.after)
    requires Run(qs, base, cur, w.BeforeEnd(), w.AfterEnd(), |base|, |cur|)
    ensures Carries(ps + [w] + qs, base, cur)
  {
    hide Run;
    RunSnoc(ps, w, base, cur, 0, 0);
    RunConcat(ps + [w], qs, base, cur, 0, 0, w.BeforeEnd(), w.AfterEnd(), |base|, |cur|);
  }

  lemma JoinPatched(u: Region, v: Region, base: seq<Line>)
    requires Fits([u, v], base) && u.BeforeEnd() == v.beforeStart
    ensures Fits([Joined(u, v)], base) && Patched([Joined(u, v)], base) == Patched([u, v], base)
  {
    hide *;
    var w, i, m, j := Joined(u, v), u.beforeStart, v.beforeStart, v.BeforeEnd();
    PairFits(u, v, base);
    JoinedText(u, v);
    assert base[i..j] == base[i..m] + base[m..j];
    OneFits(w, base);
    OnePatched(w, base);
    PairPatched(u, v, base);
    assert base[..i] + u.after + (v.after + base[j..]) == base[..i] + (u.after + v.after) + base[j..];
  }

  lemma PairFits(u: Region, v: Region, base: seq<Line>)
    requires Fits([u, v], base)
    ensures 0 <= u.beforeStart <= u.BeforeEnd() <= v.beforeStart <= v.BeforeEnd() <= |base|
    ensures base[u.beforeStart..u.BeforeEnd()] == u.before && base[v.beforeStart..v.BeforeEnd()] == v.before
  {
    var pair := [u, v];
    assert Reads(base, pair[0].beforeStart, pair[0].before) && Reads(base, pair[1].beforeStart, pair[1].before);
    assert pair[0].BeforeEnd() <= pair[1].beforeStart;
  }

  lemma JoinedText(u: Region, v: Region)
    requires u.BeforeEnd() == v.beforeStart
    ensures var w := Joined(u, v);
            w.beforeStart == u.beforeStart && w.BeforeEnd() == v.BeforeEnd() && w.before == u.before + v.before && w.after == u.after + v.after
  {
  }

  lemma OneFits(w: Region, base: seq<Line>)
    requires 0 <= w.beforeStart <= w.BeforeEnd() <= |base| && base[w.beforeStart..w.BeforeEnd()] == w.before
    ensures Fits([w], base)
  {
  }

  lemma OnePatched(w: Region, base: seq<Line>)
    requires Fits([w], base) && 0 <= w.beforeStart <= w.BeforeEnd() <= |base|
    ensures Patched([w], base) == base[..w.beforeStart] + w.after + base[w.BeforeEnd()..]
  {
    assert [w][..0] == [];
  }

  lemma PairPatched(u: Region, v: Region, base: seq<Line>)
    requires Fits([u, v], base) && 0 <= u.beforeStart <= u.BeforeEnd() == v.beforeStart <= v.BeforeEnd() <= |base|
    ensures Patched([u, v], base) == base[..u.beforeStart] + u.after + (v.after + base[v.BeforeEnd()..])
  {
    hide *;
    var i, m := u.beforeStart, v.beforeStart;
    var mid := base[..m] + v.after + base[v.BeforeEnd()..];
    PairMid(u, v, base, mid);
    CutMiddle(base[..m], v.after + base[v.BeforeEnd()..], i);
    assert mid == base[..m] + (v.after + base[v.BeforeEnd()..]) && base[..m][..i] == base[..i];
    OnePatched(u, mid);
  }

  lemma CutMiddle(p: seq<Line>, q: seq<Line>, i: int)
    requires 0 <= i <= |p|
    ensures (p + q)[..i] == p[..i] && (p + q)[|p|..] == q
  {
  }

  lemma PairMid(u: Region, v: Region, base: seq<Line>, mid: seq<Line>)
    requires Fits([u, v], base) && 0 <= u.beforeStart <= u.BeforeEnd() == v.beforeStart <= v.BeforeEnd() <= |base|
    requires mid == base[..v.beforeStart] + v.after + base[v.BeforeEnd()..]
    ensures Fits([u], mid) && Patched([u, v], base) == Patched([u], mid) && u.BeforeEnd() <= |mid|
  {
    assert [u, v][..1] == [u];
    var was := Unpatched([u, v], base);
  }

  lemma JoinShown(ps: seq<Region>, u: Region, v: Region, qs: seq<Region>, rs: seq<Region>, base: seq<Line>, cur: seq<Line>)
    requires SameShown(ps + [u] + ([v] + qs), rs, base, cur) && Adjacent(u, v)
    ensures SameShown(ps + [Joined(u, v)] + qs, rs, base, cur)
  {
    var xs, ys := ps + [u] + ([v] + qs), ps + [Joined(u, v)] + qs;
    JoinCarries(ps, u, v, qs, base, cur);
    VisibleFits(xs, base, cur);
    VisibleFits(ys, base, cur);
    VisiblePair(ps, u, v, qs);
    hide Fits, Patched, Visible, Carries;
    if !u.hidden {
      JoinParts(Visible(ps), u, v, Visible(qs), base);
    }
  }

  lemma VisiblePair(ps: seq<Region>, u: Region, v: Region, qs: seq<Region>)
    requires u.hidden == v.hidden
    ensures Visible(ps + [u] + ([v] + qs)) == Visible(ps) + (if u.hidden then [] else [u, v]) + Visible(qs)
    ensures Visible(ps + [Joined(u, v)] + qs) == Visible(ps) + (if u.hidden then [] else [Joined(u, v)]) + Visible(qs)
  {
    hide *;
    assert ps + [u] + ([v] + qs) == ps + ([u] + [v]) + qs;
    VisibleParts(ps, [u] + [v], qs);
    VisibleParts(ps, [Joined(u, v)], qs);
    VisibleConcat([u], [v]);
    VisibleOne(u);
    VisibleOne(v);
    VisibleOne(Joined(u, v));
    JoinedFlags(u, v);
    assert [u] + [v] == [u, v];
  }

  lemma JoinedFlags(u: Region, v: Region)
    ensures Joined(u, v).hidden == u.hidden
  {
  }

  lemma JoinParts(ps: seq<Region>, u: Region, v: Region, qs: seq<Region>, base: seq<Line>)
    requires Fits(ps + [u, v] + qs, base) && Fits(ps + [Joined(u, v)] + qs, base) && u.BeforeEnd() == v.beforeStart
    ensures Patched(ps + [Joined(u, v)] + qs, base) == Patched(ps + [u, v] + qs, base)
  {
    hide Patched, Fits;
    PatchedConcat(ps + [u, v], qs, base);
    PatchedConcat(ps + [Joined(u, v)], qs, base);
    var mid := Patched(qs, base);
    PatchedConcat(ps, [u, v], mid);
    PatchedConcat(ps, [Joined(u, v)], mid);
    JoinPatched(u, v, mid);
  }

  lemma VisibleParts(ps: seq<Region>, ms: seq<Region>, qs: seq<Region>)
    ensures Visible(ps + ms + qs) == Visible(ps) + Visible(ms) + Visible(qs)
  {
    VisibleConcat(ps + ms, qs);
    VisibleConcat(ps, ms);
  }

  lemma VisibleOne(r: Region)
    ensures Visible([r]) == if r.hidden then [] else [r]
  {
    assert [r][1..] == [];
  }

  predicate NoneAdjacent(rs: seq<Region>)
  {
    forall k :: 0 < k < |rs| ==> NotJoined(rs, k)
  }

  predicate NotJoined(rs: seq<Region>, k: nat)
    requires 0 < k < |rs|
  {
    !Adjacent(rs[k - 1], rs[k])
  }

  lemma NoneAdjacentEmpty()
    ensures NoneAdjacent([])
  {
  }

  lemma NoneAdjacentNext(rs: seq<Region>, r: Region)
    requires NoneAdjacent(rs) && (rs != [] ==> !Adjacent(rs[|rs| - 1], r))
    ensures NoneAdjacent(rs + [r])
  {
    hide Adjacent;
    forall k | 0 < k < |rs + [r]| ensures NotJoined(rs + [r], k) {
      assert k < |rs| ==> NotJoined(rs, k);
    }
  }

  lemma NoneAdjacentGrown(rs: seq<Region>, r: Region)
    requires rs != [] && NoneAdjacent(rs)
    ensures NoneAdjacent(rs[..|rs| - 1] + [Joined(rs[|rs| - 1], r)])
  {
    var n := |rs| - 1;
    var next := rs[..n] + [Joined(rs[n], r)];
    forall k | 0 < k < |next| ensures NotJoined(next, k) {
      assert NotJoined(rs, k);
    }
  }

  lemma SameSelf(rs: seq<Region>, base: seq<Line>, cur: seq<Line>)
    requires Carries(rs, base, cur)
    ensures SameShown(rs, rs, base, cur)
  {
  }

  lemma SameCarries(xs: seq<Region>, rs: seq<Region>, base: seq<Line>, cur: seq<Line>)
    requires SameShown(xs, rs, base, cur)
    ensures Carries(xs, base, cur)
  {
  }

  // ----- Fragments

  // The fragment wraps the region, and reads as both files do.
  ghost predicate Framed(f: Region, r: Region, base: seq<Line>, cur: seq<Line>)
  {
    Wraps(f, r) && Reads(base, f.beforeStart, f.before) && Reads(cur, f.afterStart, f.after)
  }

  // The lines at these positions are not both remembered as the same line.
  predicate Stops(original: map<int, Line>, current: map<int, Line>, o: int, n: int)
  {
    o in original && n in current ==> original[o] != current[n]
  }

  lemma FramedSelf(rs: seq<Region>, base: seq<Line>, cur: seq<Line>, i: nat)
    requires Carries(rs, base, cur) && i < |rs|
    ensures Framed(rs[i], rs[i], base, cur)
  {
    RunBounds(rs, base, cur, 0, 0, |base|, |cur|);
    WrapsSelf(rs[i], rs[i]);
  }

  lemma FramedLeft(f: Region, r: Region, original: map<int, Line>, current: map<int, Line>, base: seq<Line>, cur: seq<Line>, line: Line) returns (g: Region)
    requires Framed(f, r, base, cur) && Remembers(original, current, base, cur, f.beforeStart - 1, f.afterStart - 1, line)
    ensures g == f.(beforeStart := f.beforeStart - 1, afterStart := f.afterStart - 1, before := [line] + f.before, after := [line] + f.after)
    ensures Framed(g, r, base, cur)
  {
    hide Wraps, Reads;
    g := f.(beforeStart := f.beforeStart - 1, afterStart := f.afterStart - 1, before := [line] + f.before, after := [line] + f.after);
    WrapsLeft(f, g, r, line);
    JoinReads(base, g.beforeStart, [line], f.before);
    JoinReads(cur, g.afterStart, [line], f.after);
  }

  lemma FramedRight(f: Region, r: Region, original: map<int, Line>, current: map<int, Line>, base: seq<Line>, cur: seq<Line>, line: Line) returns (g: Region)
    requires Framed(f, r, base, cur) && Remembers(original, current, base, cur, f.BeforeEnd(), f.AfterEnd(), line)
    ensures g == f.(before := f.before + [line], after := f.after + [line])
    ensures Framed(g, r, base, cur)
  {
    hide Wraps, Reads;
    g := f.(before := f.before + [line], after := f.after + [line]);
    WrapsRight(f, g, r, line);
    JoinReads(base, f.beforeStart, f.before, [line]);
    JoinReads(cur, f.afterStart, f.after, [line]);
  }

  // The line is remembered, and stands, at both positions.
  ghost predicate Remembers(original: map<int, Line>, current: map<int, Line>, base: seq<Line>, cur: seq<Line>, o: int, n: int, line: Line)
  {
    o in original && original[o] == line && n in current && current[n] == line && Reads(base, o, [line]) && Reads(cur, n, [line])
  }

  lemma NotStopped(original: map<int, Line>, current: map<int, Line>, base: seq<Line>, cur: seq<Line>, o: int, n: int)
    requires Knows(original, base) && Knows(current, cur) && !Stops(original, current, o, n)
    ensures o in original && Remembers(original, current, base, cur, o, n, original[o])
  {
  }

  // Fragments around the regions, one each, in order and apart on both sides.
  ghost predicate Fragments(fs: seq<Region>, rs: seq<Region>, base: seq<Line>, cur: seq<Line>)
  {
    && |fs| == |rs|
    && (forall k :: 0 <= k < |fs| ==> Framed(fs[k], rs[k], base, cur))
    && (forall k, l :: 0 <= k < l < |fs| ==> fs[k].BeforeEnd() <= fs[l].beforeStart && fs[k].AfterEnd() <= fs[l].afterStart)
  }

  lemma FragmentsFit(fs: seq<Region>, rs: seq<Region>, base: seq<Line>, cur: seq<Line>)
    requires Fragments(fs, rs, base, cur)
    ensures Fits(fs, base) && Fits(rs, base) && Patched(fs, base) == Patched(rs, base)
  {
    forall k | 0 <= k < |fs| ensures Reads(base, fs[k].beforeStart, fs[k].before) && Wraps(fs[k], rs[k]) {
      assert Framed(fs[k], rs[k], base, cur);
    }
    hide Wraps, Framed;
    WrapsPatched(fs, rs, base);
  }

  // ----- Rendering the fragments

  function FragmentGroups(f: Region, grouper: Grouper): seq<seq<OpCode>> { grouper(f.before, f.after, 3) }

  function FragmentHunks(f: Region, grouper: Grouper): seq<Hunk>
    requires Groups(grouper)
  {
    assert GroupsFit(grouper(f.before, f.after, 3), f.before, f.after);
    GroupHunks(FragmentGroups(f, grouper), f.before, f.after, f.beforeStart, f.afterStart)
  }

  function FragmentFile(file: ReviewFile, f: Region, quote: Quote, grouper: Grouper): ReviewFile
    requires Groups(grouper)
  {
    file.(diff := RenderedDiff(file, quote, FragmentHunks(f, grouper)))
  }

  // A fragment is displayed with at most three lines of context around each change.
  lemma FragmentMeans(f: Region, grouper: Grouper)
    requires Groups(grouper)
    ensures GroupsFit(grouper(f.before, f.after, 3), f.before, f.after)
    ensures FragmentHunks(f, grouper) == GroupHunks(grouper(f.before, f.after, 3), f.before, f.after, f.beforeStart, f.afterStart)
  {
    hide Groups, GroupsFit, GroupHunks;
    GroupsGive(grouper, f.before, f.after, 3);
  }

  lemma GroupsGive(grouper: Grouper, a: seq<Line>, b: seq<Line>, context: nat)
    requires Groups(grouper) && context > 0
    ensures GroupsFit(grouper(a, b, context), a, b)
  {
    hide GroupsFit;
  }

  /** A fragment's file, read back as text, gives the fragment's hunks, if the format can hold them. */
  lemma FragmentParses(file: ReviewFile, f: Region, quote: Quote, grouper: Grouper, base: seq<Line>, cur: seq<Line>)
    requires Groups(grouper) && Quotes(quote) && LinesOk(base) && LinesOk(cur)
    requires Reads(base, f.beforeStart, f.before) && Reads(cur, f.afterStart, f.after)
    ensures var r := ParseHunks(FragmentFile(file, f, quote, grouper), quote, false);
            if FitsFormat(FragmentHunks(f, grouper)) then r == Ok(FragmentHunks(f, grouper)) else r.Err?
  {
    assert GroupsFit(FragmentGroups(f, grouper), f.before, f.after);
    ReadsOk(base, f.beforeStart, f.before);
    ReadsOk(cur, f.afterStart, f.after);
    hide Groups, GroupsFit, Quotes, LinesOk, FitsFormat, Reads, RenderedDiff, ParseHunks;
    RenderParses(FragmentFile(file, f, quote, grouper), quote, FragmentGroups(f, grouper), f.before, f.after, f.beforeStart, f.afterStart, false);
  }

  lemma ReadsOk(s: seq<Line>, at: int, text: seq<Line>)
    requires LinesOk(s) && Reads(s, at, text)
    ensures LinesOk(text) && 0 <= at
  {
    hide OneLine;
    forall k | 0 <= k < |text| ensures OneLine(text[k]) {
      assert s[at..at + |text|][k] == s[at + k];
    }
  }

  // The hunks of all fragments, one fragment after the other.
  function AllHunks(fs: seq<Region>, grouper: Grouper): seq<Hunk>
    requires Groups(grouper)
  {
    if fs == [] then [] else AllHunks(fs[..|fs| - 1], grouper) + FragmentHunks(fs[|fs| - 1], grouper)
  }

  lemma FragmentPatched(f: Region, grouper: Grouper, base: seq<Line>)
    requires Groups(grouper) && Reads(base, f.beforeStart, f.before)
    ensures var rs := HunkRegions(FragmentHunks(f, grouper));
            Fits(rs, base) && Patched(rs, base) == Spliced(base, f.beforeStart, f.BeforeEnd(), f.after)
  {
    var groups := FragmentGroups(f, grouper);
    assert GroupsFit(groups, f.before, f.after);
    var rs := GroupRegions(groups, f.before, f.after);
    FragmentRegions(f, grouper);
    hide GroupsFit, Groups, HunkRegions, GroupRegions, FragmentHunks;
    CarriesPatches(rs, f.before, f.after);
    PatchedWithin(rs, f.before, base, f.beforeStart, f.afterStart);
  }

  lemma FragmentRegions(f: Region, grouper: Grouper)
    requires Groups(grouper)
    ensures var groups := FragmentGroups(f, grouper);
            && GroupsFit(groups, f.before, f.after)
            && Carries(GroupRegions(groups, f.before, f.after), f.before, f.after)
            && HunkRegions(FragmentHunks(f, grouper)) == MovedBy(GroupRegions(groups, f.before, f.after), f.beforeStart, f.afterStart)
  {
    var groups := FragmentGroups(f, grouper);
    assert GroupsFit(groups, f.before, f.after);
    forall k | 0 <= k < |groups|
      ensures HunkRegion(FragmentHunks(f, grouper)[k]) == MovedBy(GroupRegions(groups, f.before, f.after), f.beforeStart, f.afterStart)[k]
    {
      GroupHunkRegion(groups[k], f.before, f.after, f.beforeStart, f.afterStart);
    }
  }

  /** Applying every hunk of every fragment is patching the fragments. */
  lemma {:induction false} AllHunksPatched(fs: seq<Region>, grouper: Grouper, base: seq<Line>)
    requires Groups(grouper) && Fits(fs, base)
    ensures var rs := HunkRegions(AllHunks(fs, grouper)); Fits(rs, base) && Patched(rs, base) == Patched(fs, base)
    decreases |fs|
  {
    if fs != [] {
      hide *;
      var n := |fs| - 1;
      var mid := Unpatched(fs, base);
      LastReads(fs, base);
      LastApart(fs, base, mid);
      FragmentPatched(fs[n], grouper, base);
      AllHunksPatched(fs[..n], grouper, mid);
      AllHunksLast(fs, grouper);
      FragmentSpan(fs[n], grouper);
      AllHunksEnd(fs[..n], grouper, fs[n].beforeStart);
      JoinFits(HunkRegions(AllHunks(fs[..n], grouper)), HunkRegions(FragmentHunks(fs[n], grouper)), base, mid, fs[n].beforeStart);
      PatchedConcat(HunkRegions(AllHunks(fs[..n], grouper)), HunkRegions(FragmentHunks(fs[n], grouper)), base);
    }
  }

  lemma LastReads(fs: seq<Region>, base: seq<Line>)
    requires fs != [] && Fits(fs, base)
    ensures Reads(base, fs[|fs| - 1].beforeStart, fs[|fs| - 1].before)
  {
  }

  lemma AllHunksSnoc(fs: seq<Region>, grouper: Grouper)
    requires fs != [] && Groups(grouper)
    ensures AllHunks(fs, grouper) == AllHunks(fs[..|fs| - 1], grouper) + FragmentHunks(fs[|fs| - 1], grouper)
  {
    hide FragmentHunks, Groups;
  }

  lemma AllHunksLast(fs: seq<Region>, grouper: Grouper)
    requires fs != [] && Groups(grouper)
    ensures HunkRegions(AllHunks(fs, grouper)) == HunkRegions(AllHunks(fs[..|fs| - 1], grouper)) + HunkRegions(FragmentHunks(fs[|fs| - 1], grouper))
  {
    hide FragmentHunks, HunkRegions, Groups, AllHunks;
    AllHunksSnoc(fs, grouper);
    RegionsConcat(AllHunks(fs[..|fs| - 1], grouper), FragmentHunks(fs[|fs| - 1], grouper));
  }

  lemma RegionsConcat(ps: seq<Hunk>, qs: seq<Hunk>)
    ensures HunkRegions(ps + qs) == HunkRegions(ps) + HunkRegions(qs)
  {
    hide HunkRegion;
  }

  predicate EndsBy(rs: seq<Region>, x: int) { forall k :: 0 <= k < |rs| ==> rs[k].BeforeEnd() <= x }

  predicate StartsFrom(rs: seq<Region>, x: int) { forall k :: 0 <= k < |rs| ==> x <= rs[k].beforeStart }

  lemma LastApart(fs: seq<Region>, base: seq<Line>, mid: seq<Line>)
    requires fs != [] && Fits(fs, base)
    requires var f := fs[|fs| - 1]; 0 <= f.beforeStart <= f.BeforeEnd() <= |base| && mid == Spliced(base, f.beforeStart, f.BeforeEnd(), f.after)
    ensures var x := fs[|fs| - 1].beforeStart;
            EndsBy(fs[..|fs| - 1], x) && 0 <= x <= |base| && x <= |mid| && mid[..x] == base[..x]
  {
  }

  lemma FragmentSpan(f: Region, grouper: Grouper)
    requires Groups(grouper)
    ensures StartsFrom(HunkRegions(FragmentHunks(f, grouper)), f.beforeStart) && EndsBy(HunkRegions(FragmentHunks(f, grouper)), f.BeforeEnd())
  {
    FragmentRegions(f, grouper);
    hide Groups, GroupsFit, HunkRegions, FragmentHunks, GroupRegions;
    var rs := GroupRegions(FragmentGroups(f, grouper), f.before, f.after);
    RunBounds(rs, f.before, f.after, 0, 0, |f.before|, |f.after|);
  }

  lemma {:induction false} AllHunksEnd(fs: seq<Region>, grouper: Grouper, x: int)
    requires Groups(grouper) && EndsBy(fs, x)
    ensures EndsBy(HunkRegions(AllHunks(fs, grouper)), x)
    decreases |fs|
  {
    if fs != [] {
      var n := |fs| - 1;
      AllHunksEnd(fs[..n], grouper, x);
      FragmentSpan(fs[n], grouper);
      AllHunksLast(fs, grouper);
      hide AllHunks, HunkRegions, FragmentHunks, Groups;
    }
  }

  // Regions patched one half at a time fit as a whole when the halves lie apart.
  lemma JoinFits(ps: seq<Region>, qs: seq<Region>, base: seq<Line>, mid: seq<Line>, x: int)
    requires Fits(qs, base) && Fits(ps, mid) && EndsBy(ps, x) && StartsFrom(qs, x)
    requires 0 <= x <= |base| && x <= |mid| && mid[..x] == base[..x]
    ensures Fits(ps + qs, base)
  {
    var rs := ps + qs;
    forall k | 0 <= k < |rs| ensures Reads(base, rs[k].beforeStart, rs[k].before) {
      if k < |ps| {
        assert rs[k] == ps[k] && mid[ps[k].beforeStart..ps[k].BeforeEnd()] == ps[k].before;
        assert base[ps[k].beforeStart..ps[k].BeforeEnd()] == base[..x][ps[k].beforeStart..ps[k].BeforeEnd()];
        assert mid[ps[k].beforeStart..ps[k].BeforeEnd()] == mid[..x][ps[k].beforeStart..ps[k].BeforeEnd()];
      } else {
        assert rs[k] == qs[k - |ps|];
        assert base[qs[k - |ps|].beforeStart..qs[k - |ps|].BeforeEnd()] == qs[k - |ps|].before;
      }
    }
    hide Reads;
    forall k, l | 0 <= k < l < |rs| ensures rs[k].BeforeEnd() <= rs[l].beforeStart {
      if l < |ps| {
        assert rs[k] == ps[k] && rs[l] == ps[l];
      } else if k < |ps| {
        assert rs[k] == ps[k] && rs[l] == qs[l - |ps|];
      } else {
        assert rs[k] == qs[k - |ps|] && rs[l] == qs[l - |ps|];
      }
    }
    ReadsFit(rs, base);
  }

  lemma ReadsFit(rs: seq<Region>, base: seq<Line>)
    requires forall k :: 0 <= k < |rs| ==> Reads(base, rs[k].beforeStart, rs[k].before)
    requires forall k, l :: 0 <= k < l < |rs| ==> rs[k].BeforeEnd() <= rs[l].beforeStart
    ensures Fits(rs, base)
  {
    forall k | 0 <= k < |rs| ensures 0 <= rs[k].beforeStart && rs[k].BeforeEnd() <= |base| && base[rs[k].beforeStart..rs[k].BeforeEnd()] == rs[k].before {
      assert Reads(base, rs[k].beforeStart, rs[k].before);
    }
  }

  // The visible ones among the first i regions, as fragments that end at oldEnd and newEnd.
  ghost predicate FragmentsTo(fs: seq<Region>, rs: seq<Region>, i: nat, base: seq<Line>, cur: seq<Line>, oldEnd: int, newEnd: int)
  {
    && i <= |rs| && Fragments(fs, Visible(rs[..i]), base, cur)
    && (forall k :: 0 <= k < |fs| ==> fs[k].BeforeEnd() <= oldEnd && fs[k].AfterEnd() <= newEnd)
    && (forall k :: i <= k < |rs| ==> oldEnd <= rs[k].beforeStart && newEnd <= rs[k].afterStart)
  }

  /** The fragment has up to three lines of context on either side of its region, and fewer only
      where they would reach what is shown before, or the next region, hidden or not, or are not
      remembered as common. */
  predicate Surrounds(f: Region, r: Region, end: (int, int), next: Option<Region>, original: map<int, Line>, current: map<int, Line>)
  {
    var lead, trail := r.beforeStart - f.beforeStart, f.BeforeEnd() - r.BeforeEnd();
    && 0 <= lead <= 3 && 0 <= trail <= 3
    && (lead < 3 ==>
          var o, n := f.beforeStart - 1, f.afterStart - 1;
          o < end.0 || n < end.1 || !(o in original && n in current && original[o] == current[n]))
    && (trail < 3 ==>
          var o, n := f.BeforeEnd(), f.AfterEnd();
          (next.Some? && (next.value.beforeStart <= o || next.value.afterStart <= n)) || !(o in original && n in current && original[o] == current[n]))
  }

  lemma MakeSurrounds(f: Region, lead: Region, r: Region, end: (int, int), next: Option<Region>, original: map<int, Line>, current: map<int, Line>)
    requires f.beforeStart == lead.beforeStart && f.afterStart == lead.afterStart && lead.BeforeEnd() == r.BeforeEnd()
    requires var n := r.beforeStart - lead.beforeStart;
             0 <= n <= 3 && (n < 3 ==> lead.beforeStart <= end.0 || lead.afterStart <= end.1 || Stops(original, current, lead.beforeStart - 1, lead.afterStart - 1))
    requires var n := f.BeforeEnd() - lead.BeforeEnd();
             && 0 <= n <= 3
             && (n < 3 ==> (next.Some? && (next.value.beforeStart <= f.BeforeEnd() || next.value.afterStart <= f.AfterEnd())) || Stops(original, current, f.BeforeEnd(), f.AfterEnd()))
    ensures Surrounds(f, r, end, next, original, current)
  {
  }

  // Where the k-th fragment's predecessor ends.
  function EndBefore(fs: seq<Region>, k: nat): (int, int)
    requires k <= |fs|
  {
    if k == 0 then (0, 0) else (fs[k - 1].BeforeEnd(), fs[k - 1].AfterEnd())
  }

  // Every visible region among the first n is surrounded by its fragment.
  ghost predicate Contextual(fs: seq<Region>, rs: seq<Region>, n: nat, original: map<int, Line>, current: map<int, Line>)
    requires n <= |rs|
  {
    forall i :: 0 <= i < n && !rs[i].hidden ==>
      var k := |Visible(rs[..i])|;
      k < |fs| && Surrounds(fs[k], rs[i], EndBefore(fs, k), if i + 1 < |rs| then Some(rs[i + 1]) else None, original, current)
  }

  lemma FragmentsLength(fs: seq<Region>, rs: seq<Region>, i: nat, base: seq<Line>, cur: seq<Line>, oldEnd: int, newEnd: int)
    requires FragmentsTo(fs, rs, i, base, cur, oldEnd, newEnd)
    ensures i <= |rs| && |fs| == |Visible(rs[..i])|
  {
    hide Visible;
  }

  lemma ContextualAdd(fs: seq<Region>, rs: seq<Region>, i: nat, original: map<int, Line>, current: map<int, Line>, f: Region)
    requires i < |rs| && Contextual(fs, rs, i, original, current) && |fs| == |Visible(rs[..i])|
    requires !rs[i].hidden ==> Surrounds(f, rs[i], EndBefore(fs, |fs|), if i + 1 < |rs| then Some(rs[i + 1]) else None, original, current)
    ensures rs[i].hidden ==> Contextual(fs, rs, i + 1, original, current)
    ensures !rs[i].hidden ==> Contextual(fs + [f], rs, i + 1, original, current)
  {
    hide Visible, Surrounds;
    forall k | 0 <= k < |fs| ensures EndBefore(fs + [f], k) == EndBefore(fs, k) {
    }
  }

  lemma FragmentsStart(rs: seq<Region>, base: seq<Line>, cur: seq<Line>)
    requires Carries(rs, base, cur)
    ensures FragmentsTo([], rs, 0, base, cur, 0, 0)
  {
    RunBounds(rs, base, cur, 0, 0, |base|, |cur|);
  }

  lemma FragmentsSkip(fs: seq<Region>, rs: seq<Region>, i: nat, base: seq<Line>, cur: seq<Line>, oldEnd: int, newEnd: int)
    requires i < |rs| && rs[i].hidden && FragmentsTo(fs, rs, i, base, cur, oldEnd, newEnd)
    ensures FragmentsTo(fs, rs, i + 1, base, cur, oldEnd, newEnd) && Visible(rs[..i + 1]) == Visible(rs[..i])
  {
    VisibleNext(rs, i);
    hide Fragments, Visible;
  }

  lemma FragmentsAdd(fs: seq<Region>, rs: seq<Region>, i: nat, base: seq<Line>, cur: seq<Line>, oldEnd: int, newEnd: int, f: Region)
    requires Carries(rs, base, cur) && i < |rs| && !rs[i].hidden && FragmentsTo(fs, rs, i, base, cur, oldEnd, newEnd)
    requires Framed(f, rs[i], base, cur) && oldEnd <= f.beforeStart && newEnd <= f.afterStart
    requires i + 1 < |rs| ==> f.BeforeEnd() <= rs[i + 1].beforeStart && f.AfterEnd() <= rs[i + 1].afterStart
    ensures FragmentsTo(fs + [f], rs, i + 1, base, cur, f.BeforeEnd(), f.AfterEnd()) && Visible(rs[..i + 1]) == Visible(rs[..i]) + [rs[i]]
  {
    VisibleNext(rs, i);
    RunBounds(rs, base, cur, 0, 0, |base|, |cur|);
    hide Run, Carries, Framed, Visible;
    assert i + 1 < |rs| ==> forall k :: i + 1 < k < |rs| ==> rs[i + 1].BeforeEnd() <= rs[k].beforeStart && rs[i + 1].AfterEnd() <= rs[k].afterStart;
  }

  lemma VisibleNext(rs: seq<Region>, i: nat)
    requires i < |rs|
    ensures Visible(rs[..i + 1]) == Visible(rs[..i]) + if rs[i].hidden then [] else [rs[i]]
  {
    assert rs[..i + 1] == rs[..i] + [rs[i]];
    VisibleConcat(rs[..i], [rs[i]]);
    VisibleOne(rs[i]);
  }

  // Files that show the fragments of these regions, one file each.
  ghost predicate Shows(files: seq<HighlightedFile>, header: ReviewFile, fs: seq<Region>, rs: seq<Region>, quote: Quote, grouper: Grouper)
    requires Groups(grouper)
  {
    && |files| == |fs| == |rs|
    && forall k :: 0 <= k < |files| ==> files[k] == HighlightedFile(FragmentFile(header, fs[k], quote, grouper), rs[k].highlighted)
  }

  datatype HighlightedFile = HighlightedFile(file: ReviewFile, highlighted: bool)

  lemma ShowsNext(files: seq<HighlightedFile>, header: ReviewFile, fs: seq<Region>, rs: seq<Region>, quote: Quote, grouper: Grouper, f: Region, r: Region)
    requires Groups(grouper) && Shows(files, header, fs, rs, quote, grouper)
    ensures Shows(files + [HighlightedFile(FragmentFile(header, f, quote, grouper), r.highlighted)], header, fs + [f], rs + [r], quote, grouper)
  {
    hide Groups, FragmentFile;
  }

  // The first i regions joined.
  ghost predicate Coalescing(joined: seq<Region>, regions: seq<Region>, i: nat, base: seq<Line>, cur: seq<Line>)
  {
    i <= |regions| && joined == JoinedAll(regions[..i]) && SameShown(joined + regions[i..], regions, base, cur) && NoneAdjacent(joined)
  }

  lemma CoalesceStart(regions: seq<Region>, base: seq<Line>, cur: seq<Line>)
    requires Carries(regions, base, cur)
    ensures Coalescing([], regions, 0, base, cur)
  {
    assert [] + regions[0..] == regions && regions[..0] == [];
    NoneAdjacentEmpty();
    SameSelf(regions, base, cur);
    hide Carries, SameShown, NoneAdjacent;
  }

  lemma JoinMoreIs(joined: seq<Region>, r: Region)
    ensures var n := |joined|; JoinMore(joined, r) == if n > 0 && Adjacent(joined[n - 1], r) then joined[..n - 1] + [Joined(joined[n - 1], r)] else joined + [r]
  {
  }

  lemma CoalesceStep(joined: seq<Region>, regions: seq<Region>, i: nat, base: seq<Line>, cur: seq<Line>)
    requires i < |regions| && Coalescing(joined, regions, i, base, cur)
    ensures Coalescing(JoinMore(joined, regions[i]), regions, i + 1, base, cur)
  {
    hide *;
    var region, n := regions[i], |joined|;
    CoalescingIs(joined, regions, i, base, cur);
    CoalescingIs(JoinMore(joined, region), regions, i + 1, base, cur);
    JoinedNext(regions, i);
    JoinMoreIs(joined, region);
    assert regions[i..] == [region] + regions[i + 1..];
    if n > 0 && Adjacent(joined[n - 1], region) {
      assert joined == joined[..n - 1] + [joined[n - 1]];
      JoinShown(joined[..n - 1], joined[n - 1], region, regions[i + 1..], regions, base, cur);
      NoneAdjacentGrown(joined, region);
    } else {
      assert joined + ([region] + regions[i + 1..]) == joined + [region] + regions[i + 1..];
      NoneAdjacentNext(joined, region);
    }
  }

  lemma CoalescingIs(joined: seq<Region>, regions: seq<Region>, i: nat, base: seq<Line>, cur: seq<Line>)
    ensures Coalescing(joined, regions, i, base, cur) <==>
              i <= |regions| && joined == JoinedAll(regions[..i]) && SameShown(joined + regions[i..], regions, base, cur) && NoneAdjacent(joined)
  {
    hide SameShown, NoneAdjacent, JoinedAll;
  }

  lemma CoalesceEnd(joined: seq<Region>, regions: seq<Region>, base: seq<Line>, cur: seq<Line>)
    requires Coalescing(joined, regions, |regions|, base, cur)
    ensures joined == JoinedAll(regions) && SameShown(joined, regions, base, cur) && NoneAdjacent(joined)
  {
    assert regions[..|regions|] == regions && joined + regions[|regions|..] == joined;
    hide SameShown, NoneAdjacent, JoinedAll;
  }

  /** The first n regions displayed: what is shown of them, in files that say so, up to `end`. */
  ghost predicate Showing(files: seq<HighlightedFile>, header: ReviewFile, fs: seq<Region>, rs: seq<Region>, n: nat, end: (int, int),
                          original: map<int, Line>, current: map<int, Line>, base: seq<Line>, cur: seq<Line>, quote: Quote, grouper: Grouper)
    requires Groups(grouper)
  {
    && FragmentsTo(fs, rs, n, base, cur, end.0, end.1) && Shows(files, header, fs, Visible(rs[..n]), quote, grouper)
    && Contextual(fs, rs, n, original, current) && end == EndBefore(fs, |fs|)
  }

  lemma DenotesCarries(rs: seq<Region>, original: map<int, Line>, current: map<int, Line>, base: seq<Line>, cur: seq<Line>)
    requires Denotes(rs, original, current, base, cur)
    ensures Carries(rs, base, cur)
  {
    hide Carries, Knows;
  }

  lemma ShowingNone(header: ReviewFile, rs: seq<Region>, original: map<int, Line>, current: map<int, Line>, base: seq<Line>, cur: seq<Line>, quote: Quote, grouper: Grouper)
    requires Groups(grouper) && Carries(rs, base, cur)
    ensures Showing([], header, [], rs, 0, (0, 0), original, current, base, cur, quote, grouper)
  {
    FragmentsStart(rs, base, cur);
  }

  lemma ShowingSkip(files: seq<HighlightedFile>, header: ReviewFile, fs: seq<Region>, rs: seq<Region>, n: nat, end: (int, int),
                    original: map<int, Line>, current: map<int, Line>, base: seq<Line>, cur: seq<Line>, quote: Quote, grouper: Grouper)
    requires Groups(grouper) && n < |rs| && rs[n].hidden && Showing(files, header, fs, rs, n, end, original, current, base, cur, quote, grouper)
    ensures Showing(files, header, fs, rs, n + 1, end, original, current, base, cur, quote, grouper)
  {
    hide FragmentsTo, Shows, Contextual, Visible, Groups;
    FragmentsLength(fs, rs, n, base, cur, end.0, end.1);
    ContextualAdd(fs, rs, n, original, current, rs[n]);
    FragmentsSkip(fs, rs, n, base, cur, end.0, end.1);
  }

  lemma ShowingAdd(files: seq<HighlightedFile>, header: ReviewFile, fs: seq<Region>, rs: seq<Region>, n: nat, end: (int, int), f: Region,
                   original: map<int, Line>, current: map<int, Line>, base: seq<Line>, cur: seq<Line>, quote: Quote, grouper: Grouper)
    requires Groups(grouper) && Carries(rs, base, cur) && n < |rs| && !rs[n].hidden && Showing(files, header, fs, rs, n, end, original, current, base, cur, quote, grouper)
    requires Framed(f, rs[n], base, cur) && end.0 <= f.beforeStart && end.1 <= f.afterStart
    requires n + 1 < |rs| ==> f.BeforeEnd() <= rs[n + 1].beforeStart && f.AfterEnd() <= rs[n + 1].afterStart
    requires Surrounds(f, rs[n], end, if n + 1 < |rs| then Some(rs[n + 1]) else None, original, current)
    ensures Showing(files + [HighlightedFile(FragmentFile(header, f, quote, grouper), rs[n].highlighted)], header, fs + [f], rs, n + 1, (f.BeforeEnd(), f.AfterEnd()),
                    original, current, base, cur, quote, grouper)
  {
    hide FragmentsTo, Shows, Contextual, Visible, Groups, Carries, Framed, Surrounds, FragmentFile;
    FragmentsLength(fs, rs, n, base, cur, end.0, end.1);
    FragmentsAdd(fs, rs, n, base, cur, end.0, end.1, f);
    ContextualAdd(fs, rs, n, original, current, f);
    ShowsNext(files, header, fs, Visible(rs[..n]), quote, grouper, f, rs[n]);
  }

  lemma ShowingParts(files: seq<HighlightedFile>, header: ReviewFile, fs: seq<Region>, rs: seq<Region>, n: nat, end: (int, int),
                     original: map<int, Line>, current: map<int, Line>, base: seq<Line>, cur: seq<Line>, quote: Quote, grouper: Grouper)
    requires Groups(grouper) && Showing(files, header, fs, rs, n, end, original, current, base, cur, quote, grouper)
    ensures n <= |rs| && FragmentsTo(fs, rs, n, base, cur, end.0, end.1) && |files| == |fs|
    ensures n == |rs| ==> Fragments(fs, Visible(rs), base, cur) && Contextual(fs, rs, n, original, current) && Shows(files, header, fs, Visible(rs), quote, grouper)
  {
    hide Fragments, Contextual, Visible, Groups, FragmentFile;
    if n == |rs| {
      assert rs[..n] == rs;
    }
  }

  // The hunks read back from the files' text.
  function ReadBack(files: seq<HighlightedFile>, quote: Quote): seq<Hunk>
  {
    if files == [] then []
    else
      var n := |files| - 1;
      var parsed := ParseHunks(files[n].file, quote, false);
      ReadBack(files[..n], quote) + if parsed.Ok? then parsed.value else []
  }

  // Every file's text can be read back.
  predicate Readable(files: seq<HighlightedFile>, quote: Quote) { forall k :: 0 <= k < |files| ==> ParseHunks(files[k].file, quote, false).Ok? }

  lemma ReadableLast(files: seq<HighlightedFile>, quote: Quote)
    requires files != [] && Readable(files, quote)
    ensures Readable(files[..|files| - 1], quote) && ParseHunks(files[|files| - 1].file, quote, false).Ok?
  {
    hide ParseHunks;
  }

  // It can if the format can hold the fragments.
  lemma ShowsReadable(files: seq<HighlightedFile>, header: ReviewFile, fs: seq<Region>, rs: seq<Region>, quote: Quote, grouper: Grouper, base: seq<Line>, cur: seq<Line>)
    requires Groups(grouper) && Quotes(quote) && LinesOk(base) && LinesOk(cur)
    requires Fragments(fs, rs, base, cur) && Shows(files, header, fs, rs, quote, grouper)
    ensures Readable(files, quote) <==> forall k :: 0 <= k < |fs| ==> FitsFormat(FragmentHunks(fs[k], grouper))
  {
    hide Groups, Quotes, LinesOk, FragmentFile, ParseHunks, FitsFormat, FragmentHunks;
    forall k | 0 <= k < |fs| ensures ParseHunks(files[k].file, quote, false).Ok? <==> FitsFormat(FragmentHunks(fs[k], grouper)) {
      assert Framed(fs[k], rs[k], base, cur);
      FragmentParses(header, fs[k], quote, grouper, base, cur);
    }
  }

  lemma {:induction false} ReadBackHunks(files: seq<HighlightedFile>, header: ReviewFile, fs: seq<Region>, rs: seq<Region>,
                                         quote: Quote, grouper: Grouper, base: seq<Line>, cur: seq<Line>)
    requires Groups(grouper) && Quotes(quote) && LinesOk(base) && LinesOk(cur)
    requires Fragments(fs, rs, base, cur) && Shows(files, header, fs, rs, quote, grouper) && Readable(files, quote)
    ensures ReadBack(files, quote) == AllHunks(fs, grouper)
    decreases |fs|
  {
    hide *;
    ShowsSame(files, header, fs, rs, quote, grouper);
    if fs != [] {
      var n := |fs| - 1;
      FragmentsPrefix(fs, rs, base, cur);
      ShowsPrefix(files, header, fs, rs, quote, grouper);
      ReadableLast(files, quote);
      FragmentParses(header, fs[n], quote, grouper, base, cur);
      ReadBackHunks(files[..n], header, fs[..n], rs[..n], quote, grouper, base, cur);
      ReadBackLast(files, quote);
      AllHunksSnoc(fs, grouper);
    } else {
      NothingRead(files, quote, grouper);
    }
  }

  lemma ShowsSame(files: seq<HighlightedFile>, header: ReviewFile, fs: seq<Region>, rs: seq<Region>, quote: Quote, grouper: Grouper)
    requires Groups(grouper) && Shows(files, header, fs, rs, quote, grouper)
    ensures |files| == |fs| == |rs|
  {
    hide Groups, FragmentFile;
  }

  lemma FragmentsPrefix(fs: seq<Region>, rs: seq<Region>, base: seq<Line>, cur: seq<Line>)
    requires fs != [] && Fragments(fs, rs, base, cur)
    ensures var n := |fs| - 1;
            && |rs| == |fs| && Fragments(fs[..n], rs[..n], base, cur)
            && Reads(base, fs[n].beforeStart, fs[n].before) && Reads(cur, fs[n].afterStart, fs[n].after)
  {
    assert Framed(fs[|fs| - 1], rs[|fs| - 1], base, cur);
    hide Wraps, Reads;
  }

  lemma ShowsPrefix(files: seq<HighlightedFile>, header: ReviewFile, fs: seq<Region>, rs: seq<Region>, quote: Quote, grouper: Grouper)
    requires Groups(grouper) && fs != [] && Shows(files, header, fs, rs, quote, grouper)
    ensures var n := |fs| - 1;
            && |files| == |rs| == |fs| && Shows(files[..n], header, fs[..n], rs[..n], quote, grouper)
            && files[n].file == FragmentFile(header, fs[n], quote, grouper)
  {
    hide Groups, FragmentFile;
  }

  lemma ReadBackLast(files: seq<HighlightedFile>, quote: Quote)
    requires files != []
    ensures var n := |files| - 1;
            var parsed := ParseHunks(files[n].file, quote, false);
            ReadBack(files, quote) == ReadBack(files[..n], quote) + if parsed.Ok? then parsed.value else []
  {
    hide ParseHunks;
  }

  lemma NothingRead(files: seq<HighlightedFile>, quote: Quote, grouper: Grouper)
    requires Groups(grouper) && files == []
    ensures ReadBack(files, quote) == [] && AllHunks([], grouper) == []
  {
  }

  /** What is displayed is exact: the displayed files, if they can be read back as text, and applied
      to the original file, give the original with precisely the visible regions changed. */
  lemma DisplayedPatch(files: seq<HighlightedFile>, header: ReviewFile, fs: seq<Region>, rs: seq<Region>,
                       quote: Quote, grouper: Grouper, base: seq<Line>, cur: seq<Line>)
    requires Groups(grouper) && Quotes(quote) && LinesOk(base) && LinesOk(cur)
    requires Fragments(fs, Visible(rs), base, cur) && Shows(files, header, fs, Visible(rs), quote, grouper) && Readable(files, quote)
    ensures var hunks := HunkRegions(ReadBack(files, quote)); Fits(hunks, base) && Patched(hunks, base) == ShownText(rs, base)
  {
    ReadBackHunks(files, header, fs, Visible(rs), quote, grouper, base, cur);
    FragmentsFit(fs, Visible(rs), base, cur);
    AllHunksPatched(fs, grouper, base);
  }
}
