/** What a composition remembers of the older file: whatever a region replaces, and the original of
    every line of the newer file that it remembers and no region covers. */
module Recall {
  import opened Regions
  import opened RegionEdits

  // How far the newer file is ahead of the older one between regions k - 1 and k.
  function Drift(rs: seq<Region>, k: nat): int
    requires k <= |rs|
  {
    if k == 0 then 0 else rs[k - 1].AfterEnd() - rs[k - 1].BeforeEnd()
  }

  // The older position q lies between regions k - 1 and k.
  predicate InGap(rs: seq<Region>, k: nat, q: int)
  {
    k <= |rs| && (k > 0 ==> rs[k - 1].BeforeEnd() <= q) && (k < |rs| ==> q < rs[k].beforeStart)
  }

  // The regions' new sides are placed by their old ones.
  ghost predicate Lined(rs: seq<Region>)
  {
    && (forall k :: 0 <= k < |rs| ==> LinedAt(rs, k))
    && (forall k, l :: 0 <= k < l < |rs| ==> rs[k].BeforeEnd() <= rs[l].beforeStart)
  }

  predicate LinedAt(rs: seq<Region>, k: nat)
    requires k < |rs|
  {
    rs[k].afterStart - rs[k].beforeStart == Drift(rs, k)
  }

  ghost predicate BeforeRecalled(rs: seq<Region>, original: map<int, Line>)
  {
    forall k, q :: 0 <= k < |rs| && rs[k].beforeStart <= q < rs[k].BeforeEnd() ==> q in original
  }

  // The gaps up to older position n.
  ghost predicate GapsRecalled(rs: seq<Region>, original: map<int, Line>, current: map<int, Line>, n: int)
  {
    forall k: nat, q :: InGap(rs, k, q) && q < n && q + Drift(rs, k) in current ==> q in original
  }

  ghost predicate Recalled(rs: seq<Region>, original: map<int, Line>, current: map<int, Line>)
  {
    BeforeRecalled(rs, original) && forall n :: GapsRecalled(rs, original, current, n)
  }

  lemma MakeRecalled(rs: seq<Region>, original: map<int, Line>, current: map<int, Line>)
    requires BeforeRecalled(rs, original)
    requires forall k: nat, q :: k <= |rs| && InGap(rs, k, q) && q + Drift(rs, k) in current ==> q in original
    ensures Recalled(rs, original, current)
  {
  }

  lemma GapRecalled(rs: seq<Region>, original: map<int, Line>, current: map<int, Line>, k: nat, q: int)
    requires Recalled(rs, original, current) && InGap(rs, k, q) && q + Drift(rs, k) in current
    ensures q in original
  {
    assert GapsRecalled(rs, original, current, q + 1);
  }

  lemma CarriesLined(rs: seq<Region>, base: seq<Line>, cur: seq<Line>)
    requires Carries(rs, base, cur)
    ensures Lined(rs) && Drift(rs, |rs|) == |cur| - |base|
    ensures forall k :: 0 <= k <= |rs| ==> Drift(rs, k) == Growth(rs[..k])
  {
    CarriesPlaced(rs, base, cur);
    CarriesInOrder(rs, base, cur);
    RunGrowth(rs, base, cur, 0, 0, |base|, |cur|);
    assert rs[..|rs|] == rs;
    hide Run, Carries, Growth, Drift, LinedAt, Placed;
    forall k | 0 <= k < |rs| ensures LinedAt(rs, k) {
      PlacedDrift(rs, k);
    }
    forall k | 0 <= k <= |rs| ensures Drift(rs, k) == Growth(rs[..k]) {
      PlacedDrift(rs, k);
    }
  }

  lemma PlacedDrift(rs: seq<Region>, k: nat)
    requires Placed(rs) && k <= |rs|
    ensures Drift(rs, k) == Growth(rs[..k]) && (k < |rs| ==> LinedAt(rs, k))
  {
    hide Growth;
    if k > 0 {
      GrowthNext(rs, k - 1);
    } else {
      NoDrift(rs);
    }
  }

  lemma NoDrift(rs: seq<Region>)
    ensures Growth(rs[..0]) == 0
  {
  }

  // The region an older position lies in, or behind.
  lemma {:induction false} FindGap(rs: seq<Region>, q: int, n: nat) returns (k: nat)
    requires n <= |rs| && (n < |rs| ==> q < rs[n].beforeStart)
    ensures k <= n && (k > 0 ==> rs[k - 1].beforeStart <= q) && (k < |rs| ==> q < rs[k].beforeStart)
  {
    if n > 0 && q < rs[n - 1].beforeStart {
      k := FindGap(rs, q, n - 1);
    } else {
      k := n;
    }
  }

  // A run up to the k-th region.
  lemma FrontDrift(rs: seq<Region>, base: seq<Line>, next: seq<Line>, k: nat, m: int, n: int)
    requires k <= |rs| && Run(rs[..k], base, next, 0, 0, m, n)
    ensures n - m == Drift(rs, k) && (k > 0 ==> rs[k - 1].BeforeEnd() <= m)
  {
    if k > 0 {
      RunLast(rs[..k], base, next, 0, 0, m, n);
      RunRange([], base, next, rs[k - 1].BeforeEnd(), rs[k - 1].AfterEnd(), m, n);
      assert |base[rs[k - 1].BeforeEnd()..m]| == |next[rs[k - 1].AfterEnd()..n]|;
    } else {
      assert |base[0..m]| == |next[0..n]|;
    }
  }

  // A run from the k-th region on, moved.
  lemma BackDrift(rs: seq<Region>, base: seq<Line>, cur: seq<Line>, next: seq<Line>, k: nat, m: int, n: int, shift: int)
    requires Lined(rs) && Drift(rs, |rs|) == |cur| - |base| && |next| == |cur| + shift
    requires k <= |rs| && Run(Shift(rs[k..], shift), base, next, m, n + shift, |base|, |next|)
    ensures n - m == Drift(rs, k) && (k < |rs| ==> m <= rs[k].beforeStart)
  {
    var moved := Shift(rs[k..], shift);
    if k < |rs| {
      assert moved[0] == rs[k].Shifted(shift) && LinedAt(rs, k);
      assert |base[m..moved[0].beforeStart]| == |next[n + shift..moved[0].afterStart]|;
    } else {
      assert moved == [] && |base[m..|base|]| == |next[n + shift..|next|]|;
    }
  }

  lemma MakeAround(rs: seq<Region>, lo: nat, hi: nat, m: int, left: int, m2: int, right: int)
    requires Lined(rs) && lo <= hi <= |rs| && m <= m2 && left <= right && left - m == Drift(rs, lo) && right - m2 == Drift(rs, hi)
    requires lo > 0 ==> rs[lo - 1].BeforeEnd() <= m
    requires hi < |rs| ==> m2 <= rs[hi].beforeStart
    requires lo < |rs| ==> left <= rs[lo].afterStart
    requires hi > 0 ==> rs[hi - 1].AfterEnd() <= right
    ensures Around(rs, lo, hi, m, left, m2, right)
  {
    assert lo < |rs| ==> LinedAt(rs, lo);
  }

  // ----- Edits

  // The stretch left..right of the newer file, and m..m2 of the older one, around regions lo..hi.
  ghost predicate Around(rs: seq<Region>, lo: nat, hi: nat, m: int, left: int, m2: int, right: int)
  {
    && Lined(rs) && lo <= hi <= |rs| && m <= m2 && left <= right
    && left - m == Drift(rs, lo) && right - m2 == Drift(rs, hi)
    && (lo > 0 ==> rs[lo - 1].BeforeEnd() <= m) && (lo < |rs| ==> m <= rs[lo].beforeStart)
    && (hi > 0 ==> rs[hi - 1].BeforeEnd() <= m2) && (hi < |rs| ==> m2 <= rs[hi].beforeStart)
  }

  // The new sides are in order, too.
  lemma {:induction false} DriftMore(rs: seq<Region>, k: nat, l: nat)
    requires Lined(rs) && k <= l < |rs|
    ensures rs[k].afterStart == rs[k].beforeStart + Drift(rs, k)
    ensures rs[k].afterStart <= rs[l].afterStart && rs[k].AfterEnd() <= rs[l].AfterEnd()
    decreases l - k
  {
    assert LinedAt(rs, k);
    if k < l {
      DriftMore(rs, k + 1, l);
      assert LinedAt(rs, k + 1) && rs[k].BeforeEnd() <= rs[k + 1].beforeStart;
    }
  }

  // Every line of the older file behind a remembered stretch is remembered.
  lemma StretchRecalled(rs: seq<Region>, original: map<int, Line>, current: map<int, Line>, lo: nat, hi: nat, m: int, left: int, m2: int, right: int, q: int)
    requires Around(rs, lo, hi, m, left, m2, right) && Recalled(rs, original, current) && m <= q < m2
    requires forall p :: left <= p < right ==> p in current
    ensures q in original
  {
    var k := FindGap(rs, q, |rs|);
    if InGap(rs, k, q) {
      StretchGap(rs, lo, hi, m, left, m2, right, k, q);
      GapRecalled(rs, original, current, k, q);
    }
  }

  lemma StretchGap(rs: seq<Region>, lo: nat, hi: nat, m: int, left: int, m2: int, right: int, k: nat, q: int)
    requires Around(rs, lo, hi, m, left, m2, right) && m <= q < m2 && InGap(rs, k, q)
    ensures left <= q + Drift(rs, k) < right
  {
    GapBetween(rs, lo, hi, m, left, m2, right, k, q);
    if lo < k {
      DriftMore(rs, lo, k - 1);
    }
    if k < hi {
      DriftMore(rs, k, hi - 1);
    }
  }

  lemma GapBetween(rs: seq<Region>, lo: nat, hi: nat, m: int, left: int, m2: int, right: int, k: nat, q: int)
    requires Around(rs, lo, hi, m, left, m2, right) && m <= q < m2 && InGap(rs, k, q)
    ensures lo <= k <= hi
  {
  }

  // What replaces the stretch covers it, or leaves it as it is.
  ghost predicate Covering(net: seq<Region>, m: int, left: int, m2: int, right: int, shift: int)
  {
    if net == [] then m2 - m == right + shift - left
    else |net| == 1 && net[0].beforeStart == m && net[0].BeforeEnd() == m2 && net[0].afterStart == left && net[0].AfterEnd() == right + shift
  }

  // What is remembered of the newer file outside the stretch, moved behind it.
  ghost predicate MovedBehind(current: map<int, Line>, updated: map<int, Line>, left: int, right: int, shift: int)
  {
    forall p :: p in updated ==> if p < left then p in current else p < right + shift || p - shift in current
  }

  // The k-th region after the edit.
  function Moved(rs: seq<Region>, net: seq<Region>, lo: nat, hi: nat, shift: int, k: nat): Region
    requires lo <= hi <= |rs| && k < lo + |net| + |rs| - hi
  {
    if k < lo then rs[k] else if k < lo + |net| then net[k - lo] else rs[k - lo - |net| + hi].Shifted(shift)
  }

  ghost predicate AllMoved(rs: seq<Region>, net: seq<Region>, lo: nat, hi: nat, shift: int, now: seq<Region>)
  {
    && lo <= hi <= |rs| && |now| == lo + |net| + |rs| - hi
    && forall k :: 0 <= k < |now| ==> now[k] == Moved(rs, net, lo, hi, shift, k)
  }

  lemma RewrittenMoved(rs: seq<Region>, net: seq<Region>, lo: nat, hi: nat, shift: int)
    requires lo <= hi <= |rs|
    ensures AllMoved(rs, net, lo, hi, shift, rs[..lo] + net + Shift(rs[hi..], shift))
  {
  }

  /** An edit leaves everything remembered that has to be. */
  lemma EditRecalled(rs: seq<Region>, net: seq<Region>, original: map<int, Line>, current: map<int, Line>, updated: map<int, Line>,
                     lo: nat, hi: nat, m: int, left: int, m2: int, right: int, shift: int, now: seq<Region>)
    requires Around(rs, lo, hi, m, left, m2, right) && Recalled(rs, original, current) && Covering(net, m, left, m2, right, shift)
    requires (forall p :: left <= p < right ==> p in current) && MovedBehind(current, updated, left, right, shift)
    requires AllMoved(rs, net, lo, hi, shift, now)
    ensures Recalled(now, original, updated)
  {
    hide Around, Covering, Recalled, MovedBehind, Drift, InGap;
    forall k, q | 0 <= k < |now| && now[k].beforeStart <= q < now[k].BeforeEnd() ensures q in original {
      BeforeKept(rs, net, original, current, lo, hi, m, left, m2, right, shift, now, k, q);
    }
    hide AllMoved;
    forall k: nat, q | k <= |now| && InGap(now, k, q) && q + Drift(now, k) in updated ensures q in original {
      GapKept(rs, net, original, current, updated, lo, hi, m, left, m2, right, shift, now, k, q);
    }
    MakeRecalled(now, original, updated);
  }

  lemma BeforeKept(rs: seq<Region>, net: seq<Region>, original: map<int, Line>, current: map<int, Line>,
                   lo: nat, hi: nat, m: int, left: int, m2: int, right: int, shift: int, now: seq<Region>, k: nat, q: int)
    requires Around(rs, lo, hi, m, left, m2, right) && Recalled(rs, original, current) && Covering(net, m, left, m2, right, shift)
    requires (forall p :: left <= p < right ==> p in current) && AllMoved(rs, net, lo, hi, shift, now)
    requires k < |now| && now[k].beforeStart <= q < now[k].BeforeEnd()
    ensures q in original
  {
    assert now[k] == Moved(rs, net, lo, hi, shift, k);
    if lo <= k < lo + |net| {
      StretchRecalled(rs, original, current, lo, hi, m, left, m2, right, q);
    }
  }

  lemma GapKept(rs: seq<Region>, net: seq<Region>, original: map<int, Line>, current: map<int, Line>, updated: map<int, Line>,
                lo: nat, hi: nat, m: int, left: int, m2: int, right: int, shift: int, now: seq<Region>, k: nat, q: int)
    requires Around(rs, lo, hi, m, left, m2, right) && Recalled(rs, original, current) && Covering(net, m, left, m2, right, shift)
    requires (forall p :: left <= p < right ==> p in current) && MovedBehind(current, updated, left, right, shift)
    requires AllMoved(rs, net, lo, hi, shift, now) && InGap(now, k, q) && q + Drift(now, k) in updated
    ensures q in original
  {
    hide *;
    if q < m {
      GapInFront(rs, net, lo, hi, m, left, m2, right, shift, now, k, q);
      MovedLine(current, updated, left, right, shift, q + Drift(rs, k));
      GapRecalled(rs, original, current, k, q);
    } else if q < m2 {
      StretchRecalled(rs, original, current, lo, hi, m, left, m2, right, q);
    } else {
      var was := GapBehind(rs, net, lo, hi, m, left, m2, right, shift, now, k, q);
      MovedLine(current, updated, left, right, shift, q + Drift(rs, was) + shift);
      GapRecalled(rs, original, current, was, q);
    }
  }

  lemma MovedLine(current: map<int, Line>, updated: map<int, Line>, left: int, right: int, shift: int, p: int)
    requires MovedBehind(current, updated, left, right, shift) && p in updated
    ensures p < left ==> p in current
    ensures left <= right + shift <= p ==> p - shift in current
  {
  }

  // What lies on either side of the stretch.
  lemma SidesOf(rs: seq<Region>, lo: nat, hi: nat, m: int, left: int, m2: int, right: int, k: nat)
    requires Around(rs, lo, hi, m, left, m2, right) && k < |rs|
    ensures k < lo ==> rs[k].beforeStart <= rs[k].BeforeEnd() <= m && rs[k].afterStart <= rs[k].AfterEnd() <= left
    ensures hi <= k ==> m2 <= rs[k].beforeStart && right <= rs[k].afterStart
    ensures rs[k].afterStart == rs[k].beforeStart + Drift(rs, k) && left - m == Drift(rs, lo) && right - m2 == Drift(rs, hi)
    ensures lo <= hi <= |rs|
  {
    DriftMore(rs, k, k);
    if k < lo {
      DriftMore(rs, k, lo - 1);
      assert k < lo - 1 ==> rs[k].BeforeEnd() <= rs[lo - 1].beforeStart;
    }
    if hi <= k {
      DriftMore(rs, hi, k);
      assert hi < k ==> rs[hi].BeforeEnd() <= rs[k].beforeStart;
    }
  }

  // The regions after the edit, and where they lie.
  lemma NowSides(rs: seq<Region>, net: seq<Region>, lo: nat, hi: nat, m: int, left: int, m2: int, right: int, shift: int, now: seq<Region>, j: nat)
    requires Around(rs, lo, hi, m, left, m2, right) && Covering(net, m, left, m2, right, shift) && AllMoved(rs, net, lo, hi, shift, now) && j < |now|
    ensures lo <= hi <= |rs| && |net| <= 1 && |now| == lo + |net| + |rs| - hi
    ensures now[j] == Moved(rs, net, lo, hi, shift, j)
    ensures if j < lo then now[j].BeforeEnd() <= m && now[j].beforeStart <= m else m2 <= now[j].BeforeEnd()
    ensures lo + |net| <= j ==> right + shift <= now[j].AfterEnd()
  {
    assert now[j] == Moved(rs, net, lo, hi, shift, j);
    if j < lo {
      SidesOf(rs, lo, hi, m, left, m2, right, j);
    } else if lo + |net| <= j {
      SidesOf(rs, lo, hi, m, left, m2, right, j - lo - |net| + hi);
    }
  }

  lemma AroundIs(rs: seq<Region>, net: seq<Region>, lo: nat, hi: nat, m: int, left: int, m2: int, right: int, shift: int, now: seq<Region>)
    requires Around(rs, lo, hi, m, left, m2, right) && Covering(net, m, left, m2, right, shift) && AllMoved(rs, net, lo, hi, shift, now)
    ensures lo <= hi <= |rs| && |net| <= 1 && |now| == lo + |net| + |rs| - hi && m <= m2 && left <= right + shift
    ensures left - m == Drift(rs, lo) && right - m2 == Drift(rs, hi)
    ensures (lo < |rs| ==> m <= rs[lo].beforeStart) && (hi > 0 ==> rs[hi - 1].BeforeEnd() <= m2)
    ensures if net == [] then m2 - m == right + shift - left else net[0].BeforeEnd() == m2 && net[0].beforeStart == m && net[0].AfterEnd() == right + shift
  {
  }

  // A gap in front of the stretch was there before.
  lemma GapInFront(rs: seq<Region>, net: seq<Region>, lo: nat, hi: nat, m: int, left: int, m2: int, right: int, shift: int, now: seq<Region>, k: nat, q: int)
    requires Around(rs, lo, hi, m, left, m2, right) && Covering(net, m, left, m2, right, shift) && q < m
    requires AllMoved(rs, net, lo, hi, shift, now) && InGap(now, k, q)
    ensures k <= |rs| && InGap(rs, k, q) && q + Drift(rs, k) < left && Drift(now, k) == Drift(rs, k)
  {
    AroundIs(rs, net, lo, hi, m, left, m2, right, shift, now);
    if k > 0 {
      NowSides(rs, net, lo, hi, m, left, m2, right, shift, now, k - 1);
    }
    if k < lo {
      NowSides(rs, net, lo, hi, m, left, m2, right, shift, now, k);
      SidesOf(rs, lo, hi, m, left, m2, right, k);
    }
    hide Around, Covering, AllMoved;
  }

  lemma MovedTo(rs: seq<Region>, net: seq<Region>, lo: nat, hi: nat, m: int, left: int, m2: int, right: int, shift: int, now: seq<Region>, i: nat)
    requires Around(rs, lo, hi, m, left, m2, right) && AllMoved(rs, net, lo, hi, shift, now) && hi <= i < |rs|
    ensures 0 <= i - hi + lo + |net| < |now|
    ensures var r, was := now[i - hi + lo + |net|], rs[i];
            && r.beforeStart == was.beforeStart && r.BeforeEnd() == was.BeforeEnd() && r.AfterEnd() == was.AfterEnd() + shift
            && m2 <= was.beforeStart && right <= was.AfterEnd() && was.AfterEnd() - was.BeforeEnd() == Drift(rs, i + 1)
  {
    assert now[i - hi + lo + |net|] == Moved(rs, net, lo, hi, shift, i - hi + lo + |net|);
    SidesOf(rs, lo, hi, m, left, m2, right, i);
  }

  // A gap behind the stretch was there before, as far ahead as the remembered lines have moved.
  lemma GapBehind(rs: seq<Region>, net: seq<Region>, lo: nat, hi: nat, m: int, left: int, m2: int, right: int, shift: int, now: seq<Region>, k: nat, q: int)
    returns (was: nat)
    requires Around(rs, lo, hi, m, left, m2, right) && Covering(net, m, left, m2, right, shift) && m2 <= q
    requires AllMoved(rs, net, lo, hi, shift, now) && InGap(now, k, q)
    ensures was <= |rs| && InGap(rs, was, q) && left <= right + shift && right <= q + Drift(rs, was)
    ensures Drift(now, k) == Drift(rs, was) + shift
  {
    hide *;
    AroundIs(rs, net, lo, hi, m, left, m2, right, shift, now);
    GapIs(now, k, q);
    if k < |now| {
      NowSides(rs, net, lo, hi, m, left, m2, right, shift, now, k);
    }
    assert lo + |net| <= k by {
      if k == lo && net != [] {
        NetAt(rs, net, lo, hi, shift, now);
      }
    }
    was := k - lo - |net| + hi;
    if was < |rs| {
      MovedTo(rs, net, lo, hi, m, left, m2, right, shift, now, was);
    }
    if hi < was {
      MovedTo(rs, net, lo, hi, m, left, m2, right, shift, now, was - 1);
    } else {
      FirstBehind(rs, net, lo, hi, m, left, m2, right, shift, now);
    }
    GapIs(rs, was, q);
  }

  lemma NetAt(rs: seq<Region>, net: seq<Region>, lo: nat, hi: nat, shift: int, now: seq<Region>)
    requires AllMoved(rs, net, lo, hi, shift, now) && net != []
    ensures lo < |now| && now[lo] == net[0]
  {
    assert now[lo] == Moved(rs, net, lo, hi, shift, lo);
  }

  lemma GapIs(rs: seq<Region>, k: nat, q: int)
    ensures InGap(rs, k, q) <==> k <= |rs| && (k > 0 ==> rs[k - 1].BeforeEnd() <= q) && (k < |rs| ==> q < rs[k].beforeStart)
    ensures 0 < k <= |rs| ==> Drift(rs, k) == rs[k - 1].AfterEnd() - rs[k - 1].BeforeEnd()
  {
  }

  // The gap right behind the stretch.
  lemma FirstBehind(rs: seq<Region>, net: seq<Region>, lo: nat, hi: nat, m: int, left: int, m2: int, right: int, shift: int, now: seq<Region>)
    requires Around(rs, lo, hi, m, left, m2, right) && Covering(net, m, left, m2, right, shift) && AllMoved(rs, net, lo, hi, shift, now)
    ensures lo + |net| <= |now| && Drift(now, lo + |net|) == Drift(rs, hi) + shift
  {
    if lo + |net| > 0 {
      assert now[lo + |net| - 1] == Moved(rs, net, lo, hi, shift, lo + |net| - 1);
    }
  }

  // ----- Learning

  // What the walk to a position's original finds: the regions passed, and whether the next one covers it.
  ghost predicate Walked(rs: seq<Region>, position: int, passed: nat, ok: bool)
  {
    && passed <= |rs|
    && (forall k :: 0 <= k < passed ==> rs[k].AfterEnd() <= position)
    && (if ok then passed < |rs| ==> position < rs[passed].afterStart
        else passed < |rs| && rs[passed].afterStart <= position < rs[passed].AfterEnd())
  }

  // The walk to a position decides how many regions are passed.
  lemma WalkedOnce(rs: seq<Region>, p: int, a: nat, ok: bool, b: nat)
    requires Walked(rs, p, a, ok) && Walked(rs, p, b, true) && InOrder(rs)
    ensures a == b && ok
  {
  }

  // The line of the newer file across from a gap is found by passing the regions in front of the gap.
  lemma GapWalked(rs: seq<Region>, k: nat, q: int)
    requires Lined(rs) && InGap(rs, k, q)
    ensures Walked(rs, q + Drift(rs, k), k, true)
  {
    forall j | 0 <= j < k ensures rs[j].AfterEnd() <= q + Drift(rs, k) {
      DriftMore(rs, j, k - 1);
    }
    if k < |rs| {
      DriftMore(rs, k, k);
    }
  }

  /** Learning a line, and its original unless a region covers it, leaves everything remembered that has to be. */
  lemma RowRecalled(rs: seq<Region>, base: seq<Line>, cur: seq<Line>, original: map<int, Line>, noted: map<int, Line>, current: map<int, Line>,
                    position: int, text: Line, passed: nat, ok: bool, o: int)
    requires Carries(rs, base, cur) && Recalled(rs, original, current)
    requires Walked(rs, position, passed, ok) && (ok ==> o == position - Growth(rs[..passed]) && o in noted) && forall q :: q in original ==> q in noted
    ensures Recalled(rs, noted, current[position := text])
  {
    CarriesLined(rs, base, cur);
    CarriesInOrder(rs, base, cur);
    hide Carries, Walked, Growth, Lined, InOrder, Drift, InGap;
    forall k: nat, q | k <= |rs| && InGap(rs, k, q) && q + Drift(rs, k) in current[position := text] ensures q in noted {
      if q + Drift(rs, k) == position {
        GapWalked(rs, k, q);
        WalkedOnce(rs, position, passed, ok, k);
      } else {
        GapRecalled(rs, original, current, k, q);
      }
    }
    MakeRecalled(rs, noted, current[position := text]);
  }

  // ----- Re-diffing

  /** Replacing a group whose text is remembered by regions within it. */
  lemma RediffStep(rs: seq<Region>, original: map<int, Line>, current: map<int, Line>, ps: seq<Region>, gs: seq<Region>, first: nat, p: int, top: int)
    requires Recalled(rs, original, current) && first < |rs| && (first > 0 ==> rs[first - 1].BeforeEnd() <= p) && p <= rs[first].beforeStart
    requires Drift(rs, first) == Drift(ps, |ps|) && forall k :: 0 <= k < |ps| ==> ps[k].BeforeEnd() <= p
    requires BeforeRecalled(ps, original) && GapsRecalled(ps, original, current, p)
    requires forall k :: 0 <= k < |gs| ==> rs[first].beforeStart <= gs[k].beforeStart && gs[k].BeforeEnd() <= top
    requires forall q :: rs[first].beforeStart <= q < top ==> q in original
    ensures BeforeRecalled(ps + gs, original) && GapsRecalled(ps + gs, original, current, top)
  {
    var now := ps + gs;
    forall k: nat, q | InGap(now, k, q) && q < top && q + Drift(now, k) in current ensures q in original {
      if q < rs[first].beforeStart {
        GapOfOld(rs, original, current, ps, gs, first, p, k, q);
      }
    }
  }

  lemma JoinAt(ps: seq<Region>, gs: seq<Region>, k: nat)
    ensures |ps| < k <= |ps + gs| ==> (ps + gs)[k - 1] == gs[k - 1 - |ps|]
  {
  }

  lemma GapOfOld(rs: seq<Region>, original: map<int, Line>, current: map<int, Line>, ps: seq<Region>, gs: seq<Region>, first: nat, p: int, k: nat, q: int)
    requires Recalled(rs, original, current) && first < |rs| && (first > 0 ==> rs[first - 1].BeforeEnd() <= p) && q < rs[first].beforeStart
    requires Drift(rs, first) == Drift(ps, |ps|) && forall k :: 0 <= k < |ps| ==> ps[k].BeforeEnd() <= p
    requires GapsRecalled(ps, original, current, p)
    requires forall k :: 0 <= k < |gs| ==> rs[first].beforeStart <= gs[k].beforeStart
    requires InGap(ps + gs, k, q) && q + Drift(ps + gs, k) in current
    ensures q in original
  {
    var now := ps + gs;
    JoinAt(ps, gs, k);
    assert k <= |ps|;
    assert forall j :: 0 <= j < |ps| ==> now[j] == ps[j];
    if q < p {
      assert InGap(ps, k, q) && Drift(ps, k) == Drift(now, k);
    } else {
      assert k == |ps|;
      GapRecalled(rs, original, current, first, q);
    }
  }

  lemma RediffEnd(rs: seq<Region>, original: map<int, Line>, current: map<int, Line>, ps: seq<Region>, p: int)
    requires Recalled(rs, original, current) && (|rs| > 0 ==> rs[|rs| - 1].BeforeEnd() <= p)
    requires Drift(rs, |rs|) == Drift(ps, |ps|) && forall k :: 0 <= k < |ps| ==> ps[k].BeforeEnd() <= p
    requires BeforeRecalled(ps, original) && GapsRecalled(ps, original, current, p)
    ensures Recalled(ps, original, current)
  {
    forall k: nat, q | k <= |ps| && InGap(ps, k, q) && q + Drift(ps, k) in current ensures q in original {
      if p <= q {
        assert k == |ps|;
        GapRecalled(rs, original, current, |rs|, q);
      }
    }
    MakeRecalled(ps, original, current);
  }

  // A group's old text is remembered if the gaps inside it are.
  lemma GroupRecalled(rs: seq<Region>, original: map<int, Line>, current: map<int, Line>, first: nat, last: nat)
    requires Lined(rs) && Recalled(rs, original, current) && first < last <= |rs|
    requires forall k, q :: first < k < last && rs[k - 1].BeforeEnd() <= q < rs[k].beforeStart ==> q in original
    ensures forall q :: rs[first].beforeStart <= q < rs[last - 1].BeforeEnd() ==> q in original
  {
    forall q | rs[first].beforeStart <= q < rs[last - 1].BeforeEnd() ensures q in original {
      var k := FindGap(rs, q, |rs|);
      if rs[k - 1].BeforeEnd() <= q {
        assert first < k < last;
      }
    }
  }
}
